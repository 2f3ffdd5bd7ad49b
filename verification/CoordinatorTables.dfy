/**
 The coordinator's durable tables and what every committed state satisfies. A table whose primary key is
 another table's key (outcomes, accepted results, assignment cancellations; failures, lease
 cancellations) is a set of optional columns of that other table's rows. An injective digest is the
 digested value itself.
 */
module CoordinatorTables {
  import opened Wrappers

  type Id = nat
  type Time = real

  datatype Kind = Train | Eval

  datatype Manifest = Manifest(policyId: Id, version: nat, lineage: nat, adapter: Option<nat>, body: nat)

  datatype Policy = Policy(manifest: Manifest, path: nat)

  datatype ResultEnvelope = ResultEnvelope(
    assignment: Id, attempt: nat, lease: Id, worker: Id, session: Id,
    requestedPolicy: Id, requestedDigest: Manifest, body: nat)

  datatype FailureEnvelope = FailureEnvelope(
    assignment: Id, attempt: nat, lease: Id, worker: Id, session: Id, retryable: bool, body: nat)

  datatype Digest = OfResult(result: ResultEnvelope) | OfFailure(failure: FailureEnvelope)

  datatype AssignmentState = Pending | RetryWait | Leased | Succeeded | Failed

  datatype OutcomeKind = ResultOutcome | FailureOutcome | AttemptsExhausted | DeadlineExceeded

  datatype Outcome = Outcome(kind: OutcomeKind, lease: Option<Id>, digest: Option<Digest>, completedAt: Time)

  datatype Acceptance = Acceptance(lease: Id, digest: ResultEnvelope)

  /** `cancellation` is the assignment_cancellations row, holding its `terminal` flag. */
  datatype Assignment = Assignment(
    group: Id, index: nat, policy: Id, maxAttempts: nat, createdAt: Time, deadline: Option<Time>,
    attemptCount: nat, availableAt: Time, state: AssignmentState, current: Option<Id>,
    outcome: Option<Outcome>, accepted: Option<Acceptance>, cancellation: Option<bool>)

  datatype LeaseState = Active | LeaseSucceeded | LeaseFailed | LeaseExpired

  /** The lease_cancellations row and its `delivered_at`. */
  datatype Notice = NotCancelled | Requested | Delivered(at: Time)

  datatype FailureRecord = FailureRecord(digest: FailureEnvelope, terminal: bool)

  datatype Lease = Lease(
    assignment: Id, attempt: nat, worker: Id, session: Id, issuedAt: Time,
    expiresAt: Time, state: LeaseState, lastRenewSentAt: Option<Time>, notice: Notice, failure: Option<FailureRecord>)

  datatype GroupState = Collecting | Ready

  datatype CreationKey = Occurrence(source: Id, cursor: nat)

  datatype Group = Group(
    policy: Id, kind: Kind, size: nat, task: nat, createdAt: Time, key: CreationKey, sequence: nat, state: GroupState)

  datatype SourceSpec = SourceSpec(
    kind: Kind, weight: real, tasks: seq<nat>, groupSize: nat, maxAttempts: nat, timeout: Option<Time>,
    enabled: bool, body: nat)

  datatype Source = Source(spec: SourceSpec, virtualFinish: real, cursor: nat)

  datatype Capabilities = Capabilities(lineage: nat, slots: nat, body: nat)

  datatype Session = Session(
    worker: Id, capabilities: Capabilities, lastHeartbeat: Option<Time>, lastRequest: Option<Time>)

  datatype LeaseRequest = LeaseRequest(
    id: Id, worker: Id, session: Id, sentAt: Time, loaded: seq<Id>, slots: nat, body: nat)

  datatype Disposition = Undecided | NoWork | Granted(lease: Id)

  datatype Request = Request(session: Id, digest: LeaseRequest, disposition: Disposition)

  datatype Settings = Settings(maxLag: Option<nat>, preference: Option<real>, nextSequence: nat)

  datatype Tables = Tables(
    lineage: nat, policies: map<Id, Policy>, active: Id, settings: Settings, sources: map<Id, Source>,
    groups: map<Id, Group>, assignments: map<Id, Assignment>, leases: map<Id, Lease>,
    sessions: map<Id, Session>, requests: map<Id, Request>)

  datatype Error = Conflict | InvalidState | Incompatible | NoCapacity | NotFound | BadValue | Integrity

  datatype Reply<+T> = Reply(db: Tables, result: Result<T, Error>)

  // ---------------------------------------------------------------- one assignment and its leases

  predicate Waiting(a: Assignment) { a.state.Pending? || a.state.RetryWait? }

  predicate Terminal(a: Assignment) { a.state.Succeeded? || a.state.Failed? }

  predicate Passed(deadline: Option<Time>, now: Time) { deadline.Some? && deadline.value <= now }

  predicate RowOk(a: Assignment) {
    && 0 < a.maxAttempts && a.attemptCount <= a.maxAttempts
    && (Waiting(a) ==> a.attemptCount < a.maxAttempts)
    && (a.state.Leased? <==> a.current.Some?)
    && (a.state.Leased? ==> 0 < a.attemptCount)
    && (Terminal(a) <==> a.outcome.Some?)
    && (a.state.Succeeded? <==> a.accepted.Some?)
    && (a.accepted.Some? ==>
          && a.outcome.value.kind == ResultOutcome
          && a.outcome.value.lease == Some(a.accepted.value.lease)
          && a.outcome.value.digest == Some(OfResult(a.accepted.value.digest))
          && a.accepted.value.digest.lease == a.accepted.value.lease)
    && (a.state.Failed? ==> a.outcome.value.kind != ResultOutcome)
    && (a.cancellation.Some? ==> !Waiting(a) && (a.cancellation.value <==> Terminal(a)))
    && a.createdAt <= a.availableAt
    && (a.deadline.Some? ==> a.createdAt < a.deadline.value)
  }

  /** What lease `id` and its assignment's row say about each other. */
  predicate LinkOk(id: Id, l: Lease, a: Assignment) {
    && 1 <= l.attempt <= a.attemptCount
    && a.createdAt <= l.issuedAt < l.expiresAt
    && (a.deadline.Some? ==> l.expiresAt <= a.deadline.value)
    && (l.state.Active? <==> a.current == Some(id))
    && (l.state.Active? ==> l.attempt == a.attemptCount)
    && (l.state.LeaseSucceeded? <==> a.accepted.Some? && a.accepted.value.lease == id)
    && (l.state.LeaseSucceeded? ==> a.accepted.value.digest.assignment == l.assignment)
    && (l.state.LeaseFailed? <==> l.failure.Some?)
    && (l.failure.Some? ==> l.failure.value.digest.lease == id && l.failure.value.digest.assignment == l.assignment)
    && (!l.notice.NotCancelled? ==> a.cancellation.Some?)
    && (l.state.Active? && a.cancellation.Some? ==> !l.notice.NotCancelled?)
  }

  ghost predicate RowsOk(db: Tables) {
    forall a :: a in db.assignments ==> RowOk(db.assignments[a])
  }

  ghost predicate LinksOk(db: Tables) {
    forall l :: l in db.leases ==>
      db.leases[l].assignment in db.assignments && LinkOk(l, db.leases[l], db.assignments[db.leases[l].assignment])
  }

  ghost predicate LeaseOf(db: Tables, l: Option<Id>, a: Id) {
    l.Some? ==> l.value in db.leases && db.leases[l.value].assignment == a
  }

  /** The foreign keys from an assignment's row to its leases. */
  ghost predicate HeldOk(db: Tables) {
    forall a :: a in db.assignments ==>
      && LeaseOf(db, db.assignments[a].current, a)
      && (db.assignments[a].outcome.Some? ==> LeaseOf(db, db.assignments[a].outcome.value.lease, a))
  }

  ghost predicate HasAttempt(db: Tables, a: Id, k: nat) {
    exists l :: l in db.leases && db.leases[l].assignment == a && db.leases[l].attempt == k
  }

  /** The attempts of every assignment are numbered 1 to attempt_count, each once. */
  ghost predicate NumberedOk(db: Tables) {
    && (forall a, k: nat :: a in db.assignments && 1 <= k <= db.assignments[a].attemptCount ==> HasAttempt(db, a, k))
    && (forall l, m ::
          && l in db.leases && m in db.leases
          && db.leases[l].assignment == db.leases[m].assignment && db.leases[l].attempt == db.leases[m].attempt
          ==> l == m)
  }

  // ---------------------------------------------------------------- groups and the catalogue

  function Members(assignments: map<Id, Assignment>, g: Id): set<Id> {
    set a | a in assignments && assignments[a].group == g
  }

  predicate Settled(assignments: map<Id, Assignment>, g: Id) {
    forall a :: a in assignments && assignments[a].group == g ==> Terminal(assignments[a])
  }

  ghost predicate PlacedOk(db: Tables) {
    forall a :: a in db.assignments ==>
      && db.assignments[a].group in db.groups
      && db.assignments[a].index < db.groups[db.assignments[a].group].size
      && db.assignments[a].policy == db.groups[db.assignments[a].group].policy
  }

  ghost predicate DistinctOk(db: Tables) {
    forall a, b ::
      && a in db.assignments && b in db.assignments
      && db.assignments[a].group == db.assignments[b].group && db.assignments[a].index == db.assignments[b].index
      ==> a == b
  }

  ghost predicate CountedOk(db: Tables) {
    forall g :: g in db.groups ==> |Members(db.assignments, g)| == db.groups[g].size
  }

  /** Each group has exactly `size` assignments, at distinct indices below `size`. */
  ghost predicate MembersOk(db: Tables) {
    PlacedOk(db) && DistinctOk(db) && CountedOk(db)
  }

  ghost predicate ReadyOk(db: Tables) {
    forall g :: g in db.groups ==> (db.groups[g].state.Ready? <==> Settled(db.assignments, g))
  }

  ghost predicate KeysOk(db: Tables) {
    && (forall g :: g in db.groups ==>
          && db.groups[g].policy in db.policies
          && db.groups[g].key.source in db.sources
          && db.groups[g].key.cursor < db.sources[db.groups[g].key.source].cursor
          && db.groups[g].sequence < db.settings.nextSequence)
    && (forall g, h ::
          && g in db.groups && h in db.groups
          && (db.groups[g].sequence == db.groups[h].sequence || db.groups[g].key == db.groups[h].key)
          ==> g == h)
  }

  predicate SpecOk(s: SourceSpec) {
    && s.weight > 0.0 && s.tasks != [] && 0 < s.groupSize && 0 < s.maxAttempts
    && (s.timeout.Some? ==> s.timeout.value > 0.0)
  }

  ghost predicate CatalogOk(db: Tables) {
    && db.active in db.policies
    && (forall p :: p in db.policies ==> db.policies[p].manifest.policyId == p && db.policies[p].manifest.lineage == db.lineage)
    && (forall p, q ::
          && p in db.policies && q in db.policies
          && db.policies[p].manifest.version == db.policies[q].manifest.version
          ==> p == q)
    && (forall s :: s in db.sources ==> SpecOk(db.sources[s].spec))
  }

  ghost predicate SessionsOk(db: Tables) {
    && (forall l :: l in db.leases ==>
          db.leases[l].session in db.sessions && db.sessions[db.leases[l].session].worker == db.leases[l].worker)
    && (forall r :: r in db.requests ==>
          && db.requests[r].session in db.sessions
          && (db.requests[r].disposition.Granted? ==> db.requests[r].disposition.lease in db.leases))
    && (forall r, q ::
          && r in db.requests && q in db.requests && db.requests[r].disposition.Granted?
          && db.requests[q].disposition == db.requests[r].disposition
          ==> r == q)
  }

  // ---------------------------------------------------------------- staleness, capacity, the clock

  function Version(db: Tables): nat {
    if db.active in db.policies then db.policies[db.active].manifest.version else 0
  }

  predicate StaleGroup(db: Tables, lag: nat, g: Id) {
    && g in db.groups && db.groups[g].kind.Train? && db.groups[g].policy in db.policies
    && Version(db) - db.policies[db.groups[g].policy].manifest.version > lag
  }

  /** With a lag configured, stale train work is finished or is leased and cancelled. */
  ghost predicate StaleOk(db: Tables) {
    db.settings.maxLag.Some? ==>
      forall a :: a in db.assignments && StaleGroup(db, db.settings.maxLag.value, db.assignments[a].group) ==>
        !Waiting(db.assignments[a]) && (db.assignments[a].state.Leased? ==> db.assignments[a].cancellation.Some?)
  }

  /** A lease that occupies a slot of its session. */
  predicate Occupies(l: Lease, deadline: Option<Time>, now: Time) {
    l.state.Active? && now < l.expiresAt && !Passed(deadline, now) && !l.notice.Delivered?
  }

  function Live(db: Tables, session: Id, now: Time): set<Id> {
    set l | l in db.leases && db.leases[l].session == session && db.leases[l].assignment in db.assignments
            && Occupies(db.leases[l], db.assignments[db.leases[l].assignment].deadline, now)
  }

  ghost predicate CapacityOk(db: Tables, now: Time) {
    forall s :: s in db.sessions ==> |Live(db, s, now)| <= db.sessions[s].capabilities.slots
  }

  ghost predicate ClockOk(db: Tables, now: Time) {
    && (forall a :: a in db.assignments ==> db.assignments[a].createdAt <= now)
    && (forall l :: l in db.leases ==> db.leases[l].issuedAt <= now)
  }

  /** The constraints between rows; `StaleOk`, `CapacityOk` and `ClockOk` come on top. */
  ghost predicate Sound(db: Tables) {
    && RowsOk(db) && LinksOk(db) && HeldOk(db) && NumberedOk(db) && MembersOk(db) && ReadyOk(db)
    && KeysOk(db) && CatalogOk(db) && SessionsOk(db)
  }

  // ---------------------------------------------------------------- how rows may change

  /** Strictly lowered by every change of an assignment's state; starts at twice `maxAttempts`. */
  function Rank(a: Assignment): int {
    if Waiting(a) then 2 * (a.maxAttempts - a.attemptCount)
    else if a.state.Leased? then 2 * (a.maxAttempts - a.attemptCount) + 1
    else 0
  }

  predicate SameRowInputs(a: Assignment, b: Assignment) {
    && a.group == b.group && a.index == b.index && a.policy == b.policy && a.maxAttempts == b.maxAttempts
    && a.createdAt == b.createdAt && a.deadline == b.deadline
  }

  predicate RowEvolves(a: Assignment, b: Assignment) {
    && SameRowInputs(a, b)
    && a.attemptCount <= b.attemptCount
    && (Terminal(a) ==> b == a)
    && (a.cancellation.Some? ==> b.cancellation.Some? && (!Waiting(a) ==> !Waiting(b)))
    && (Rank(b) < Rank(a) || (b.state == a.state && b.attemptCount == a.attemptCount && b.current == a.current))
  }

  predicate SameLeaseInputs(l: Lease, m: Lease) {
    && l.assignment == m.assignment && l.attempt == m.attempt && l.worker == m.worker && l.session == m.session
    && l.issuedAt == m.issuedAt
  }

  /** A closed lease keeps everything but the delivery of its cancellation; no lease gets shorter. */
  predicate LeaseEvolves(l: Lease, m: Lease) {
    && SameLeaseInputs(l, m)
    && l.expiresAt <= m.expiresAt
    && (!l.state.Active? ==> m == l.(notice := m.notice))
    && (!l.state.Active? && l.notice.NotCancelled? ==> m == l)
    && (!l.notice.NotCancelled? ==> !m.notice.NotCancelled?)
    && (l.notice.Delivered? ==> m.notice == l.notice)
    && (l.lastRenewSentAt.Some? ==> m.lastRenewSentAt.Some? && l.lastRenewSentAt.value <= m.lastRenewSentAt.value)
  }

  predicate GroupEvolves(g: Group, h: Group) {
    h == g.(state := h.state) && (g.state.Ready? ==> h.state.Ready?)
  }

  predicate RequestEvolves(r: Request, q: Request) {
    q == r.(disposition := q.disposition) && (!r.disposition.Undecided? ==> q == r)
  }

  predicate SessionEvolves(s: Session, t: Session) {
    s.worker == t.worker && s.capabilities == t.capabilities
  }

  predicate SourceEvolves(s: Source, t: Source) {
    s.spec == t.spec && s.cursor <= t.cursor && s.virtualFinish <= t.virtualFinish
  }

  ghost predicate RowsEvolve(db: Tables, to: Tables) {
    forall a :: a in db.assignments ==> a in to.assignments && RowEvolves(db.assignments[a], to.assignments[a])
  }

  ghost predicate LeasesEvolve(db: Tables, to: Tables) {
    forall l :: l in db.leases ==> l in to.leases && LeaseEvolves(db.leases[l], to.leases[l])
  }

  ghost predicate OthersEvolve(db: Tables, to: Tables) {
    && (forall g :: g in db.groups ==> g in to.groups && GroupEvolves(db.groups[g], to.groups[g]))
    && (forall r :: r in db.requests ==> r in to.requests && RequestEvolves(db.requests[r], to.requests[r]))
    && (forall s :: s in db.sessions ==> s in to.sessions && SessionEvolves(db.sessions[s], to.sessions[s]))
    && (forall s :: s in db.sources ==> s in to.sources && SourceEvolves(db.sources[s], to.sources[s]))
    && (forall p :: p in db.policies ==> p in to.policies && db.policies[p] == to.policies[p])
    && db.lineage == to.lineage
    && Version(db) <= Version(to)
  }

  /** What any later committed state keeps of an earlier one. */
  ghost predicate Evolves(db: Tables, to: Tables) {
    RowsEvolve(db, to) && LeasesEvolve(db, to) && OthersEvolve(db, to)
  }

  lemma EvolvesReflexive(db: Tables)
    ensures Evolves(db, db)
  {
  }

  lemma EvolvesTransitive(a: Tables, b: Tables, c: Tables)
    requires Evolves(a, b) && Evolves(b, c)
    ensures Evolves(a, c)
  {
    RowsTransitive(a, b, c);
    LeasesTransitive(a, b, c);
    OthersTransitive(a, b, c);
  }

  lemma RowsTransitive(a: Tables, b: Tables, c: Tables)
    requires RowsEvolve(a, b) && RowsEvolve(b, c)
    ensures RowsEvolve(a, c)
  {
    hide RowEvolves;
    forall x | x in a.assignments ensures x in c.assignments && RowEvolves(a.assignments[x], c.assignments[x]) {
      RowTransitive(a.assignments[x], b.assignments[x], c.assignments[x]);
    }
  }

  lemma RowTransitive(a: Assignment, b: Assignment, c: Assignment)
    requires RowEvolves(a, b) && RowEvolves(b, c)
    ensures RowEvolves(a, c)
  {
  }

  lemma LeasesTransitive(a: Tables, b: Tables, c: Tables)
    requires LeasesEvolve(a, b) && LeasesEvolve(b, c)
    ensures LeasesEvolve(a, c)
  {
    hide LeaseEvolves;
    forall x | x in a.leases ensures x in c.leases && LeaseEvolves(a.leases[x], c.leases[x]) {
      LeaseTransitive(a.leases[x], b.leases[x], c.leases[x]);
    }
  }

  lemma LeaseTransitive(a: Lease, b: Lease, c: Lease)
    requires LeaseEvolves(a, b) && LeaseEvolves(b, c)
    ensures LeaseEvolves(a, c)
  {
  }

  lemma OthersTransitive(a: Tables, b: Tables, c: Tables)
    requires OthersEvolve(a, b) && OthersEvolve(b, c)
    ensures OthersEvolve(a, c)
  {
    hide Version;
  }
}
