/**
  `SqliteTerritoryCustody` as the object it is.  Each public operation leaves the
  lock between its writes, so others may do anything but finish this caller's own
  work in between; every operation is proved to be a run of the ledger's steps,
  and its answer to mean what it says whatever happened meanwhile.
  */
module TerritoryCustodyObject {
  import opened Options
  import opened Retention
  import opened RetentionSafety

  datatype Refusal =
    NotReleasable | NotOwned | SameEpisode | NotReady | Differs | Expired | Lost | NotVerified | NotDrained

  /** The step does not end the process or finish the ticket, claim or retirement at these positions. */
  ghost predicate Spares(step: Step, ticket: nat, claim: nat, retirement: nat) {
    match step
    case AcceptRelease(k, _, _, _, _) => k != ticket
    case FinishClaim(k, _) => k != claim
    case FinishRetire(k, _, _, _) => k != retirement
    case Crash => false
    case _ => true
  }

  /** None of `steps` ends the process or finishes the ticket, claim or retirement at these positions. */
  ghost predicate Leaves(steps: seq<Step>, ticket: nat, claim: nat, retirement: nat) {
    forall step :: step in steps ==> Spares(step, ticket, claim, retirement)
  }

  lemma LeavesOne(s: State, step: Step, ticket: nat, claim: nat, retirement: nat)
    requires Spares(step, ticket, claim, retirement)
    ensures var s' := Next(s, step);
            && |s.tickets| <= |s'.tickets| && |s.claims| <= |s'.claims| && |s.retirements| <= |s'.retirements|
            && (ticket < |s.tickets| ==> s'.tickets[ticket] == s.tickets[ticket])
            && (claim < |s.claims| ==> s'.claims[claim] == s.claims[claim])
            && (retirement < |s.retirements| ==> s'.retirements[retirement] == s.retirements[retirement])
  {
    hide AcceptWrite, SetPhase, Recovered, RetireWrite, Taken, MayRelease;
  }

  /** Others leave this caller's own work where it was. */
  lemma {:induction false} LeavesMine(s: State, steps: seq<Step>, ticket: nat, claim: nat, retirement: nat)
    requires Leaves(steps, ticket, claim, retirement)
    ensures var s' := Run(s, steps);
            && |s.tickets| <= |s'.tickets| && |s.claims| <= |s'.claims| && |s.retirements| <= |s'.retirements|
            && (ticket < |s.tickets| ==> s'.tickets[ticket] == s.tickets[ticket])
            && (claim < |s.claims| ==> s'.claims[claim] == s.claims[claim])
            && (retirement < |s.retirements| ==> s'.retirements[retirement] == s.retirements[retirement])
    decreases steps
  {
    if steps == [] {
    } else {
      assert steps[0] in steps;
      LeavesOne(s, steps[0], ticket, claim, retirement);
      assert Leaves(steps[1..], ticket, claim, retirement);
      hide Next;
      LeavesMine(Next(s, steps[0]), steps[1..], ticket, claim, retirement);
    }
  }

  lemma {:induction false} RunSplits(s: State, left: seq<Step>, right: seq<Step>)
    ensures Run(s, left + right) == Run(Run(s, left), right)
    decreases left
  {
    hide Next;
    if left == [] {
      assert left + right == right;
    } else {
      assert (left + right)[0] == left[0] && (left + right)[1..] == left[1..] + right;
      RunSplits(Next(s, left[0]), left[1..], right);
    }
  }

  lemma RunOne(s: State, step: Step)
    ensures Run(s, [step]) == Next(s, step)
  {
    hide Next;
    assert [step][1..] == [];
  }

  /** First step, what others do, last step. */
  lemma RunAround(s: State, first: Step, others: seq<Step>, last: Step)
    ensures Run(s, [first] + others + [last]) == Next(Run(Next(s, first), others), last)
  {
    hide Next;
    RunOne(s, first);
    RunSplits(s, [first], others);
    RunSplits(s, [first] + others, [last]);
    RunOne(Run(s, [first] + others), last);
  }

  // ---- What the invariant says of one piece of open work ------------------

  lemma TicketInPlace(s: State, k: nat)
    requires Inv(s) && k < |s.tickets|
    ensures TicketOk(s.rows, s.tickets[k])
  {
  }

  lemma ClaimInPlace(s: State, k: nat)
    requires Inv(s) && k < |s.claims|
    ensures ClaimOk(s.rows, s.claims[k])
  {
  }

  lemma RetirementInPlace(s: State, k: nat)
    requires Inv(s) && k < |s.retirements|
    ensures RetirementOk(s.rows, s.retirements[k])
  {
  }

  lemma SameLease(rows: Rows, rows': Rows, id: CustodyId)
    requires Advances(rows, rows') && id in rows
    ensures id in rows' && rows'[id].lease.identity == rows[id].lease.identity
  {
  }

  lemma RetiredIsDestroyed(s: State, id: CustodyId)
    requires Inv(s) && id in s.rows && s.rows[id].phase.Retired?
    ensures s.rows[id].lease.identity in s.destroyed
  {
  }

  class TerritoryCustody {
    var rows: Rows
    var tickets: seq<Ticket>
    var claims: seq<Claim>
    var retirements: seq<Retirement>
    var destroyed: set<Identity>

    ghost function Value(): State
      reads this
    {
      State(rows, tickets, claims, retirements, destroyed)
    }

    ghost predicate Valid()
      reads this
    {
      Inv(Value())
    }

    constructor ()
      ensures Valid() && Value() == Start()
    {
      rows, tickets, claims, retirements, destroyed := map[], [], [], [], {};
      new;
      StartInv();
    }

    /** Everything others do while this caller is outside the lock. */
    method Others(steps: seq<Step>)
      requires Valid()
      modifies this
      ensures Valid() && Value() == Run(old(Value()), steps)
    {
      RunKeeps(Value(), steps);
      var s := Run(State(rows, tickets, claims, retirements, destroyed), steps);
      rows, tickets, claims, retirements, destroyed := s.rows, s.tickets, s.claims, s.retirements, s.destroyed;
    }

    /** `recover`: fence every ambiguous row; what stays retained is untouched and unexpired. */
    method Recover(now: real)
      requires Valid()
      modifies this
      ensures Valid() && Value() == Next(old(Value()), Step.Recover(now))
      ensures forall id :: id in rows ==>
                Ending(rows[id].phase)
                || (rows[id].phase.Retained? && now < rows[id].retainUntil && id in old(rows)
                    && rows[id] == old(rows)[id])
    {
      RecoverKeeps(Value(), now);
      RecoverFences(Value(), now);
      hide Inv;
      rows := Recovered(rows, now);
    }

    /**
      `release`: write the transfer intent, let the attachment drain, accept the
      lease.  No refusal means that the row is exactly what was announced, now
      retained with this archive.  A drain that fails leaves the ticket unused and
      the row as announced, unless a recovery has fenced it meanwhile.
      */
    method Release(id: CustodyId, owner: string, source: Coordinates, lease: Lease, retainUntil: real, now: real,
                   others: seq<Step>, drained: bool, accepted: Lease, archive: string, later: real)
      returns (error: Option<Refusal>, ghost trace: seq<Step>)
      requires Valid() && Leaves(others, |tickets|, |claims|, |retirements|)
      modifies this
      ensures Valid() && Value() == Run(old(Value()), trace)
      ensures error.None? ==>
                && id in rows && MayRelease(old(rows), id, owner, source, lease) && accepted == lease
                && later < retainUntil
                && rows[id] == ReleaseRow(old(rows), id, owner, source, lease, retainUntil)
                               .(phase := Retained, archive := Some(archive), digest := Some(Digest(archive)))
      ensures error == Some(Expired) || error == Some(Lost) ==> id in rows && Ending(rows[id].phase)
      ensures error == Some(NotDrained) ==>
                && !drained && id in rows && old(|tickets|) < |tickets| && !tickets[old(|tickets|)].used
                && (rows[id] == ReleaseRow(old(rows), id, owner, source, lease, retainUntil) || Ending(rows[id].phase))
    {
      hide Inv, Advances, Run;
      ghost var first := BeginRelease(id, owner, source, lease, retainUntil, now);
      RunOne(Value(), first);
      NextKeeps(Value(), first);
      trace := [first];
      if retainUntil <= now || !MayRelease(rows, id, owner, source, lease) || Taken(rows, id, lease.identity) {
        return Some(NotReleasable), trace;
      }
      var generation := if id in rows then rows[id].generation + 1 else 1;
      var k, row := |tickets|, Row(owner, generation, Releasing, source, lease, retainUntil, None, None, None, None);
      rows := rows[id := row];
      tickets := tickets + [Ticket(id, row, false)];
      assert Value() == Next(old(Value()), first);
      LeavesMine(Value(), others, k, |claims|, |retirements|);
      Others(others);
      ghost var mid := Value();
      TicketInPlace(mid, k);
      if !drained {
        trace := [first] + others;
        RunSplits(old(Value()), [first], others);
        return Some(NotDrained), trace;
      }
      ghost var last := AcceptRelease(k, source, accepted, archive, later);
      RunAround(old(Value()), first, others, last);
      NextKeeps(mid, last);
      if accepted.identity != lease.identity {
        trace := [first] + others + [last];
        return Some(Differs), trace;
      }
      trace := [first] + others + [last];
      tickets := tickets[k := tickets[k].(used := true)];
      if accepted != lease || |archive| > MAX_ARCHIVE {
        return Some(Differs), trace;
      }
      if retainUntil <= later {
        if rows[id].phase.Releasing? {
          rows := rows[id := rows[id].(phase := Retiring)];
        }
        return Some(Expired), trace;
      }
      if rows[id].generation != generation || !rows[id].phase.Releasing? {
        return Some(Lost), trace;
      }
      rows := rows[id := rows[id].(phase := Retained, archive := Some(archive), digest := Some(Digest(archive)))];
      return None, trace;
    }

    /**
      `reclaim`: claim the retained row, rebuild the attachment outside the lock,
      then attach it, or retire the row if rebuilding failed.
      */
    method Reclaim(id: CustodyId, owner: string, episode: string, attachment: string, observed: Option<Observed>,
                   now: real, others: seq<Step>, rebuilt: bool)
      returns (error: Option<Refusal>, ghost trace: seq<Step>)
      requires Valid() && Leaves(others, |tickets|, |claims|, |retirements|)
      modifies this
      ensures Valid() && Value() == Run(old(Value()), trace)
      ensures error.None? ==>
                && rebuilt && id in old(rows) && old(rows)[id].phase.Retained? && old(rows)[id].owner == owner
                && observed == Some(Observed(old(rows)[id].lease.identity, true)) && now < old(rows)[id].retainUntil
                && id in rows && rows[id].phase.Attached? && rows[id].generation == old(rows)[id].generation
                && rows[id].lease.identity == old(rows)[id].lease.identity
      ensures error == Some(NotReady) || error == Some(Lost) ==> id in rows && Ending(rows[id].phase)
    {
      hide Inv, Advances, Run;
      ghost var first := Step.Reclaim(id, owner, episode, attachment, observed, now);
      RunOne(Value(), first);
      NextKeeps(Value(), first);
      trace := [first];
      if id !in rows || rows[id].owner != owner || !rows[id].phase.Retained? {
        return Some(NotOwned), trace;
      }
      var r := rows[id];
      if episode == r.source.episode || attachment == r.source.attachment {
        return Some(SameEpisode), trace;
      }
      if r.retainUntil <= now || observed.None? || !observed.value.ready
          || observed.value.identity != r.lease.identity {
        rows := rows[id := r.(phase := Retiring)];
        return Some(NotReady), trace;
      }
      var k := |claims|;
      rows := rows[id := r.(phase := Claiming, target := Some(Coordinates(episode, attachment, r.source.epoch + 1)))];
      claims := claims + [Claim(id, r.generation, true)];
      assert Value() == Next(old(Value()), first);
      ghost var claimed := rows;
      LeavesMine(Value(), others, |tickets|, k, |retirements|);
      RunKeeps(Value(), others);
      Others(others);
      ghost var last := FinishClaim(k, rebuilt);
      RunAround(old(Value()), first, others, last);
      NextKeeps(Value(), last);
      ClaimInPlace(Value(), k);
      SameLease(claimed, rows, id);
      trace := [first] + others + [last];
      claims := claims[k := claims[k].(pending := false)];
      if !rows[id].phase.Claiming? {
        return Some(Lost), trace;
      }
      if !rebuilt {
        rows := rows[id := rows[id].(phase := Retiring)];
        return Some(NotReady), trace;
      }
      rows := rows[id := rows[id].(phase := Attached)];
      return None, trace;
    }

    /**
      `retire`: fence the row, have the provider destroy the lease outside the lock,
      and record the tombstone.  Whatever others did meanwhile, the row is retired
      and its exact lease verifiably destroyed when the write succeeds, and also when
      it is lost; otherwise the row is still being retired.
      */
    method Retire(id: CustodyId, owner: string, seen: Option<Identity>, others: seq<Step>, cleaned: Identity,
                  verified: bool, disposition: string)
      returns (error: Option<Refusal>, ghost trace: seq<Step>)
      requires Valid() && Leaves(others, |tickets|, |claims|, |retirements|)
      modifies this
      ensures Valid() && Value() == Run(old(Value()), trace)
      ensures error.None? || error == Some(Lost) ==>
                id in rows && rows[id].phase.Retired? && rows[id].lease.identity in destroyed
      ensures error == Some(NotVerified) ==>
                id in rows && Ending(rows[id].phase) && !(verified && cleaned == rows[id].lease.identity)
    {
      hide Inv, Advances, Run;
      ghost var first := Step.Retire(id, owner, seen);
      RunOne(Value(), first);
      NextKeeps(Value(), first);
      trace := [first];
      if id !in rows || rows[id].owner != owner {
        return Some(NotOwned), trace;
      }
      if rows[id].phase.Retired? {
        RetiredIsDestroyed(Value(), id);
        return None, trace;
      }
      if rows[id].phase.Retained? {
        rows := rows[id := rows[id].(phase := Retiring)];
      }
      if !rows[id].phase.Retiring? {
        return Some(NotReady), trace;
      }
      if seen.Some? && seen.value != rows[id].lease.identity {
        return Some(Differs), trace;
      }
      var k, identity := |retirements|, rows[id].lease.identity;
      retirements := retirements + [Retirement(id, identity, true)];
      assert Value() == Next(old(Value()), first);
      LeavesMine(Value(), others, |tickets|, |claims|, k);
      Others(others);
      ghost var last := FinishRetire(k, cleaned, verified, disposition);
      RunAround(old(Value()), first, others, last);
      NextKeeps(Value(), last);
      RetirementInPlace(Value(), k);
      trace := [first] + others + [last];
      retirements := retirements[k := retirements[k].(pending := false)];
      if verified {
        destroyed := destroyed + {cleaned};
      }
      if cleaned != identity || !verified {
        return Some(NotVerified), trace;
      }
      if rows[id].phase.Retired? {
        RetiredIsDestroyed(Value(), id);
        return Some(Lost), trace;
      }
      rows := rows[id := rows[id].(phase := Retired, archive := None, digest := None, cleanup := Some(disposition))];
      return None, trace;
    }
  }
}
