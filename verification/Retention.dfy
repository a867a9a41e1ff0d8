/**
  The territory custody ledger (`attachment/_retention.py`): durable rows changed
  by single guarded writes, with every in-memory continuation (a release ticket, a
  claim being attached, a retirement being destroyed) lost by a crash.
  */
module Retention {
  import opened Options

  type CustodyId = string

  const MAX_ARCHIVE: nat := 536870912

  datatype Phase = Releasing | Retained | Claiming | Attached | Retiring | Retired

  datatype Coordinates = Coordinates(episode: string, attachment: string, epoch: int)
  datatype Identity = Identity(operation: string, provider: string, lease: string)
  datatype Lease = Lease(identity: Identity, capabilities: set<string>)

  datatype Row = Row(
    owner: string, generation: int, phase: Phase, source: Coordinates, lease: Lease, retainUntil: real,
    archive: Option<string>, digest: Option<string>, target: Option<Coordinates>, cleanup: Option<string>)

  type Rows = map<CustodyId, Row>

  /** sha256, as an injective function. */
  function Digest(bytes: string): string { "sha256:" + bytes }

  /** What `TerritoryCustodyRecord` accepts. */
  predicate Valid(r: Row) {
    && r.generation > 0
    && (if r.archive.Some? then |r.archive.value| <= MAX_ARCHIVE && r.digest == Some(Digest(r.archive.value))
        else r.digest.None?)
    && (r.target.Some? ==> r.target.value.epoch > r.source.epoch)
    && (r.phase.Retained? || r.phase.Claiming? ==> r.archive.Some?)
  }

  // ---- Operations ---------------------------------------------------------

  datatype Ticket = Ticket(id: CustodyId, expected: Row, used: bool)
  datatype Claim = Claim(id: CustodyId, generation: int, pending: bool)
  datatype Retirement = Retirement(id: CustodyId, identity: Identity, pending: bool)

  /** What a provider's lookup reports. */
  datatype Observed = Observed(identity: Identity, ready: bool)

  /** `destroyed` are the identities whose cleanup a provider has verified. */
  datatype State = State(rows: Rows, tickets: seq<Ticket>, claims: seq<Claim>, retirements: seq<Retirement>,
                         destroyed: set<Identity>)

  datatype Step =
    | BeginRelease(id: CustodyId, owner: string, source: Coordinates, lease: Lease, retainUntil: real, now: real)
    | AcceptRelease(ticket: nat, coordinates: Coordinates, accepted: Lease, archive: string, now: real)
    | Reclaim(id: CustodyId, owner: string, episode: string, attachment: string, observed: Option<Observed>, now: real)
    | FinishClaim(claim: nat, ok: bool)
    | Recover(now: real)
    | Retire(id: CustodyId, owner: string, seen: Option<Identity>)
    | FinishRetire(retirement: nat, cleaned: Identity, verified: bool, disposition: string)
    | Crash

  /** The unique index over unretired (provider, operation) pairs would refuse this lease under `id`. */
  predicate Taken(rows: Rows, id: CustodyId, identity: Identity) {
    exists other :: other in rows && other != id && !rows[other].phase.Retired?
                    && rows[other].lease.identity.provider == identity.provider
                    && rows[other].lease.identity.operation == identity.operation
  }

  predicate MayRelease(rows: Rows, id: CustodyId, owner: string, source: Coordinates, lease: Lease) {
    id in rows ==>
      var r := rows[id];
      r.phase.Attached? && r.owner == owner && r.target == Some(source) && r.lease.identity == lease.identity
  }

  function ReleaseRow(rows: Rows, id: CustodyId, owner: string, source: Coordinates, lease: Lease,
                      retainUntil: real): Row {
    var generation := if id in rows then rows[id].generation + 1 else 1;
    Row(owner, generation, Releasing, source, lease, retainUntil, None, None, None, None)
  }

  function SetPhase(rows: Rows, id: CustodyId, expected: Phase, phase: Phase): Rows {
    if id in rows && rows[id].phase == expected then rows[id := rows[id].(phase := phase)] else rows
  }

  function BeginReleaseStep(s: State, id: CustodyId, owner: string, source: Coordinates, lease: Lease,
                            retainUntil: real, now: real): State {
    var row := ReleaseRow(s.rows, id, owner, source, lease, retainUntil);
    if retainUntil <= now || !MayRelease(s.rows, id, owner, source, lease) || Taken(s.rows, id, lease.identity) then s
    else s.(rows := s.rows[id := row], tickets := s.tickets + [Ticket(id, row, false)])
  }

  function AcceptWrite(rows: Rows, id: CustodyId, expected: Row, accepted: Lease, archive: string, now: real): Rows {
    if accepted != expected.lease || |archive| > MAX_ARCHIVE then rows
    else if expected.retainUntil <= now then SetPhase(rows, id, Releasing, Retiring)
    else if id in rows && rows[id].generation == expected.generation && rows[id].phase.Releasing? then
      rows[id := rows[id].(phase := Retained, archive := Some(archive), digest := Some(Digest(archive)))]
    else rows
  }

  function AcceptStep(s: State, k: nat, coordinates: Coordinates, accepted: Lease, archive: string, now: real): State {
    if k >= |s.tickets| || s.tickets[k].used || coordinates != s.tickets[k].expected.source
       || accepted.identity != s.tickets[k].expected.lease.identity then s
    else
      var t := s.tickets[k];
      s.(tickets := s.tickets[k := t.(used := true)],
         rows := AcceptWrite(s.rows, t.id, t.expected, accepted, archive, now))
  }

  function ReclaimStep(s: State, id: CustodyId, owner: string, episode: string, attachment: string,
                       observed: Option<Observed>, now: real): State {
    if id !in s.rows || s.rows[id].owner != owner || !s.rows[id].phase.Retained? then s
    else
      var r := s.rows[id];
      if episode == r.source.episode || attachment == r.source.attachment then s
      else if r.retainUntil <= now || observed.None? || !observed.value.ready
          || observed.value.identity != r.lease.identity then
        s.(rows := SetPhase(s.rows, id, Retained, Retiring))
      else
        s.(rows := s.rows[id := r.(phase := Claiming,
                                   target := Some(Coordinates(episode, attachment, r.source.epoch + 1)))],
           claims := s.claims + [Claim(id, r.generation, true)])
  }

  function FinishClaimStep(s: State, k: nat, ok: bool): State {
    if k >= |s.claims| || !s.claims[k].pending then s
    else
      s.(claims := s.claims[k := s.claims[k].(pending := false)],
         rows := SetPhase(s.rows, s.claims[k].id, Claiming, if ok then Attached else Retiring))
  }

  predicate Ambiguous(r: Row, now: real) {
    r.phase.Releasing? || r.phase.Claiming? || r.phase.Attached? || (r.phase.Retained? && r.retainUntil <= now)
  }

  function Recovered(rows: Rows, now: real): Rows {
    map id | id in rows :: if Ambiguous(rows[id], now) then rows[id].(phase := Retiring) else rows[id]
  }

  function RetireStep(s: State, id: CustodyId, owner: string, seen: Option<Identity>): State {
    if id !in s.rows || s.rows[id].owner != owner then s
    else
      var rows := SetPhase(s.rows, id, Retained, Retiring);
      if !rows[id].phase.Retiring? then s
      else if seen.Some? && seen.value != rows[id].lease.identity then s.(rows := rows)
      else s.(rows := rows, retirements := s.retirements + [Retirement(id, rows[id].lease.identity, true)])
  }

  function RetireWrite(rows: Rows, id: CustodyId, disposition: string): Rows {
    if id in rows && rows[id].phase.Retiring? then
      rows[id := rows[id].(phase := Retired, archive := None, digest := None, cleanup := Some(disposition))]
    else rows
  }

  /** The provider's verified cleanup counts whatever the ledger then does with it. */
  function FinishRetireStep(s: State, k: nat, cleaned: Identity, verified: bool, disposition: string): State {
    if k >= |s.retirements| || !s.retirements[k].pending then s
    else
      var job := s.retirements[k];
      var s' := s.(retirements := s.retirements[k := job.(pending := false)],
                   destroyed := if verified then s.destroyed + {cleaned} else s.destroyed);
      if cleaned != job.identity || !verified then s' else s'.(rows := RetireWrite(s.rows, job.id, disposition))
  }

  function Next(s: State, step: Step): State {
    match step
    case BeginRelease(id, owner, source, lease, retainUntil, now) =>
      BeginReleaseStep(s, id, owner, source, lease, retainUntil, now)
    case AcceptRelease(k, coordinates, accepted, archive, now) => AcceptStep(s, k, coordinates, accepted, archive, now)
    case Reclaim(id, owner, episode, attachment, observed, now) =>
      ReclaimStep(s, id, owner, episode, attachment, observed, now)
    case FinishClaim(k, ok) => FinishClaimStep(s, k, ok)
    case Recover(now) => s.(rows := Recovered(s.rows, now))
    case Retire(id, owner, seen) => RetireStep(s, id, owner, seen)
    case FinishRetire(k, cleaned, verified, disposition) => FinishRetireStep(s, k, cleaned, verified, disposition)
    case Crash => s.(tickets := [], claims := [], retirements := [])
  }

  function Start(): State { State(map[], [], [], [], {}) }

  function Run(s: State, steps: seq<Step>): State
    decreases steps
  {
    if steps == [] then s else Run(Next(s, steps[0]), steps[1..])
  }
}
