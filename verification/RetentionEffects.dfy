/**
  Exactly when each write of the custody ledger takes effect, and what it leaves: a
  write changes one row or none, and whatever stops it leaves the row as it was or
  fences it.
  */
module RetentionEffects {
  import opened Options
  import opened Retention

  /** At most row `id` differs, and it is there. */
  ghost predicate OnlyRow(rows: Rows, rows': Rows, id: CustodyId) {
    && id in rows' && rows'.Keys == rows.Keys + {id}
    && forall other :: other in rows && other != id ==> rows'[other] == rows[other]
  }

  /** No other territory that is not retired has this provider's operation. */
  ghost predicate Free(rows: Rows, id: CustodyId, identity: Identity) {
    forall other :: other in rows && other != id && !rows[other].phase.Retired? ==>
      !(rows[other].lease.identity.provider == identity.provider
        && rows[other].lease.identity.operation == identity.operation)
  }

  /** A release is announced for a new territory, or for one attached to the very source that gives it up. */
  ghost predicate Announces(s: State, step: Step)
    requires step.BeginRelease?
  {
    && step.now < step.retainUntil && Free(s.rows, step.id, step.lease.identity)
    && (step.id in s.rows ==>
          var r := s.rows[step.id];
          r.phase.Attached? && r.owner == step.owner && r.target == Some(step.source)
          && r.lease.identity == step.lease.identity)
  }

  ghost predicate Announced(s: State, step: Step, s': State)
    requires step.BeginRelease?
  {
    && OnlyRow(s.rows, s'.rows, step.id)
    && var r := s'.rows[step.id];
       && r.phase.Releasing? && r.generation == (if step.id in s.rows then s.rows[step.id].generation + 1 else 1)
       && r.owner == step.owner && r.source == step.source && r.lease == step.lease && r.retainUntil == step.retainUntil
       && r.archive.None? && r.digest.None? && r.target.None? && r.cleanup.None?
       && s' == s.(rows := s'.rows, tickets := s.tickets + [Ticket(step.id, r, false)])
  }

  /** The ticket is there, unused, and speaks of this source and this lease. */
  ghost predicate Presents(s: State, step: Step)
    requires step.AcceptRelease?
  {
    && step.ticket < |s.tickets| && !s.tickets[step.ticket].used
    && step.coordinates == s.tickets[step.ticket].expected.source
    && step.accepted.identity == s.tickets[step.ticket].expected.lease.identity
  }

  ghost predicate Accepted(s: State, step: Step, s': State)
    requires step.AcceptRelease? && Presents(s, step)
  {
    var k := step.ticket;
    var t := s.tickets[k];
    var sound := step.accepted == t.expected.lease && |step.archive| <= MAX_ARCHIVE;
    && s' == s.(tickets := s.tickets[k := t.(used := true)], rows := s'.rows)
    && if sound && t.id in s.rows && s.rows[t.id].phase.Releasing?
          && (step.now >= t.expected.retainUntil || s.rows[t.id].generation == t.expected.generation)
       then
         && OnlyRow(s.rows, s'.rows, t.id)
         && s'.rows[t.id] == if step.now < t.expected.retainUntil
                             then s.rows[t.id].(phase := Retained, archive := Some(step.archive),
                                                digest := Some(Digest(step.archive)))
                             else s.rows[t.id].(phase := Retiring)
       else s'.rows == s.rows
  }

  /** The row is retained, its owner asks for it, and for another episode and attachment than gave it up. */
  ghost predicate Asks(s: State, step: Step)
    requires step.Reclaim?
  {
    && step.id in s.rows && s.rows[step.id].phase.Retained? && s.rows[step.id].owner == step.owner
    && step.episode != s.rows[step.id].source.episode && step.attachment != s.rows[step.id].source.attachment
  }

  ghost predicate Reclaimed(s: State, step: Step, s': State)
    requires step.Reclaim? && Asks(s, step)
  {
    var r := s.rows[step.id];
    OnlyRow(s.rows, s'.rows, step.id)
    && if step.now < r.retainUntil && step.observed == Some(Observed(r.lease.identity, true)) then
         && s'.rows[step.id] == r.(phase := Claiming,
                                   target := Some(Coordinates(step.episode, step.attachment, r.source.epoch + 1)))
         && s' == s.(rows := s'.rows, claims := s.claims + [Claim(step.id, r.generation, true)])
       else
         s'.rows[step.id] == r.(phase := Retiring) && s' == s.(rows := s'.rows)
  }

  ghost predicate ClaimFinished(s: State, step: Step, s': State)
    requires step.FinishClaim? && step.claim < |s.claims|
  {
    var c := s.claims[step.claim];
    && s' == s.(claims := s.claims[step.claim := c.(pending := false)], rows := s'.rows)
    && if c.id in s.rows && s.rows[c.id].phase.Claiming? then
         OnlyRow(s.rows, s'.rows, c.id)
         && s'.rows[c.id] == s.rows[c.id].(phase := if step.ok then Attached else Retiring)
       else s'.rows == s.rows
  }

  /** Recovery fences what was on its way, what is attached, and what expired, and leaves the rest. */
  ghost predicate RecoveredAll(s: State, now: real, s': State) {
    && s'.rows.Keys == s.rows.Keys && s' == s.(rows := s'.rows)
    && forall id :: id in s.rows ==>
         s'.rows[id] == match s.rows[id].phase
                        case Retired => s.rows[id]
                        case Retiring => s.rows[id]
                        case Retained =>
                          if now < s.rows[id].retainUntil then s.rows[id] else s.rows[id].(phase := Retiring)
                        case _ => s.rows[id].(phase := Retiring)
  }

  ghost predicate Retires(s: State, step: Step)
    requires step.Retire?
  {
    && step.id in s.rows && s.rows[step.id].owner == step.owner
    && (s.rows[step.id].phase.Retained? || s.rows[step.id].phase.Retiring?)
  }

  /** The row is fenced; its lease is to be destroyed unless another was seen in its place. */
  ghost predicate RetireBegun(s: State, step: Step, s': State)
    requires step.Retire? && Retires(s, step)
  {
    var lease := s.rows[step.id].lease.identity;
    && OnlyRow(s.rows, s'.rows, step.id) && s'.rows[step.id] == s.rows[step.id].(phase := Retiring)
    && s' == s.(rows := s'.rows,
                retirements := s.retirements
                               + if step.seen.None? || step.seen.value == lease
                                 then [Retirement(step.id, lease, true)] else [])
  }

  /** A verified cleanup of the very lease buries a row that is being retired, and drops its archive. */
  ghost predicate RetireFinished(s: State, step: Step, s': State)
    requires step.FinishRetire? && step.retirement < |s.retirements|
  {
    var job := s.retirements[step.retirement];
    && s' == s.(retirements := s.retirements[step.retirement := job.(pending := false)], rows := s'.rows,
                destroyed := if step.verified then s.destroyed + {step.cleaned} else s.destroyed)
    && if step.verified && step.cleaned == job.identity && job.id in s.rows && s.rows[job.id].phase.Retiring? then
         OnlyRow(s.rows, s'.rows, job.id)
         && s'.rows[job.id] == s.rows[job.id].(phase := Retired, archive := None, digest := None,
                                               cleanup := Some(step.disposition))
       else s'.rows == s.rows
  }

  ghost predicate Effect(s: State, step: Step, s': State) {
    match step
    case BeginRelease(_, _, _, _, _, _) => if Announces(s, step) then Announced(s, step, s') else s' == s
    case AcceptRelease(_, _, _, _, _) => if Presents(s, step) then Accepted(s, step, s') else s' == s
    case Reclaim(_, _, _, _, _, _) => if Asks(s, step) then Reclaimed(s, step, s') else s' == s
    case FinishClaim(k, _) => if k < |s.claims| && s.claims[k].pending then ClaimFinished(s, step, s') else s' == s
    case Recover(now) => RecoveredAll(s, now, s')
    case Retire(_, _, _) => if Retires(s, step) then RetireBegun(s, step, s') else s' == s
    case FinishRetire(k, _, _, _) =>
      if k < |s.retirements| && s.retirements[k].pending then RetireFinished(s, step, s') else s' == s
    case Crash => s' == s.(tickets := [], claims := [], retirements := [])
  }

  lemma AnnouncesWhen(s: State, step: Step)
    requires step.BeginRelease?
    ensures Effect(s, step, Next(s, step))
  {
  }

  lemma AcceptsWhen(s: State, step: Step)
    requires step.AcceptRelease?
    ensures Effect(s, step, Next(s, step))
  {
  }

  lemma RetireTakesEffect(s: State, step: Step)
    requires step.Retire? || step.FinishRetire?
    ensures Effect(s, step, Next(s, step))
  {
    if step.Retire? && Retires(s, step) && s.rows[step.id].phase.Retiring? {
      assert s.rows[step.id := s.rows[step.id].(phase := Retiring)] == s.rows;
    }
    assert s.retirements + [] == s.retirements;
  }

  lemma RecoverTakesEffect(s: State, now: real)
    ensures Effect(s, Recover(now), Next(s, Recover(now)))
  {
  }

  /** From any state, every step takes effect exactly when and exactly how the ledger's rules say. */
  lemma StepTakesEffect(s: State, step: Step)
    ensures Effect(s, step, Next(s, step))
  {
    match step {
      case BeginRelease(_, _, _, _, _, _) => AnnouncesWhen(s, step);
      case AcceptRelease(_, _, _, _, _) => AcceptsWhen(s, step);
      case Retire(_, _, _) => RetireTakesEffect(s, step);
      case FinishRetire(_, _, _, _) => RetireTakesEffect(s, step);
      case Recover(now) => RecoverTakesEffect(s, now);
      case _ =>
    }
  }
}
