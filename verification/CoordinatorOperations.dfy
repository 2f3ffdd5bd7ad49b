/** What each coordinator transaction does to the tables and answers, at clock reading `now`. */
module CoordinatorOperations {
  import opened Wrappers
  import opened CoordinatorTables

  datatype Retry = Retry(base: real, max: real)

  function Power2(n: int): (r: real)
    ensures r >= 1.0
  {
    if n <= 0 then 1.0 else 2.0 * Power2(n - 1)
  }

  function Delay(retry: Retry, attempts: nat): real {
    var raw := retry.base * Power2(attempts - 1);
    if raw < retry.max then raw else retry.max
  }

  /** `time`, but no later than the deadline. */
  function Capped(time: Time, deadline: Option<Time>): Time {
    if deadline.Some? && deadline.value < time then deadline.value else time
  }

  function Later(s: Time, t: Time): Time { if s < t then t else s }

  // ---------------------------------------------------------------- changes of one assignment's row

  function FailRow(a: Assignment, outcome: Outcome): Assignment {
    a.(state := Failed, current := None, outcome := Some(outcome))
  }

  /** `_retry_or_terminal`; an expiry counts as retryable and carries no digest. */
  function RetryOrFail(a: Assignment, retry: Retry, now: Time, retryable: bool, lease: Id, digest: Option<Digest>): Assignment {
    var next := now + Delay(retry, a.attemptCount);
    if retryable && a.attemptCount < a.maxAttempts && !Passed(a.deadline, next)
    then a.(state := RetryWait, availableAt := next, current := None)
    else
      var kind :=
        if a.attemptCount >= a.maxAttempts then AttemptsExhausted
        else if !retryable then FailureOutcome
        else if Passed(a.deadline, next) then DeadlineExceeded
        else AttemptsExhausted;
      FailRow(a, Outcome(kind, Some(lease), digest, now))
  }

  /** Ends a cancelled assignment; an outcome already there is kept. */
  function Abandon(a: Assignment, now: Time, lease: Option<Id>, digest: Option<Digest>): Assignment {
    a.(state := Failed, current := None,
       cancellation := if a.cancellation.Some? then Some(true) else None,
       outcome := if a.outcome.Some? then a.outcome else Some(Outcome(FailureOutcome, lease, digest, now)))
  }

  function RowAfterExpiry(a: Assignment, cancelled: bool, retry: Retry, now: Time, lease: Id): Assignment {
    if cancelled then Abandon(a, now, Some(lease), None) else RetryOrFail(a, retry, now, true, lease, None)
  }

  function RowAfterCancel(a: Assignment, now: Time): Assignment {
    if Waiting(a) then Abandon(a.(cancellation := Some(true)), now, None, None)
    else if a.state.Leased? then a.(cancellation := if a.cancellation.Some? then a.cancellation else Some(false))
    else a
  }

  function RowAfterResult(a: Assignment, e: ResultEnvelope, now: Time): Assignment {
    a.(state := Succeeded, current := None,
       accepted := Some(Acceptance(e.lease, e)),
       outcome := Some(Outcome(ResultOutcome, Some(e.lease), Some(OfResult(e)), now)),
       cancellation := if a.cancellation.Some? then Some(true) else None)
  }

  function RowAfterFailure(a: Assignment, cancelled: bool, retry: Retry, e: FailureEnvelope, now: Time): Assignment {
    if cancelled then Abandon(a, now, Some(e.lease), Some(OfFailure(e)))
    else RetryOrFail(a, retry, now, e.retryable, e.lease, Some(OfFailure(e)))
  }

  // ---------------------------------------------------------------- group readiness

  function Recomputed(groups: map<Id, Group>, assignments: map<Id, Assignment>, g: Id): Group
    requires g in groups
  {
    groups[g].(state := if Settled(assignments, g) then Ready else Collecting)
  }

  function RecomputeGroup(db: Tables, g: Id): Tables {
    if g in db.groups then db.(groups := db.groups[g := Recomputed(db.groups, db.assignments, g)]) else db
  }

  function RecomputeGroups(db: Tables): Tables {
    db.(groups := map g | g in db.groups :: Recomputed(db.groups, db.assignments, g))
  }

  // ---------------------------------------------------------------- expiry

  predicate Due(l: Lease, deadline: Option<Time>, now: Time) {
    l.state.Active? && (l.expiresAt <= now || Passed(deadline, now))
  }

  predicate HeldDue(db: Tables, now: Time, a: Id)
    requires a in db.assignments
  {
    var row := db.assignments[a];
    row.current.Some? && row.current.value in db.leases && Due(db.leases[row.current.value], row.deadline, now)
  }

  function AssignmentAfterExpiry(db: Tables, retry: Retry, now: Time, a: Id): Assignment
    requires a in db.assignments
  {
    var row := db.assignments[a];
    if HeldDue(db, now, a)
    then RowAfterExpiry(row, !db.leases[row.current.value].notice.NotCancelled?, retry, now, row.current.value)
    else if Waiting(row) && Passed(row.deadline, now) then FailRow(row, Outcome(DeadlineExceeded, None, None, now))
    else row
  }

  function LeaseAfterExpiry(db: Tables, now: Time, l: Id): Lease
    requires l in db.leases
  {
    var lease := db.leases[l];
    if lease.assignment in db.assignments && Due(lease, db.assignments[lease.assignment].deadline, now)
    then lease.(state := LeaseExpired)
    else lease
  }

  /** `_expire_leases`: every due lease expires, then every overdue waiting assignment fails. */
  function Expired(db: Tables, retry: Retry, now: Time): Tables {
    RecomputeGroups(db.(
      leases := map l | l in db.leases :: LeaseAfterExpiry(db, now, l),
      assignments := map a | a in db.assignments :: AssignmentAfterExpiry(db, retry, now, a)))
  }

  // ---------------------------------------------------------------- cancellation of stale train work

  function AssignmentAfterCancel(db: Tables, lag: nat, now: Time, a: Id): Assignment
    requires a in db.assignments
  {
    if StaleGroup(db, lag, db.assignments[a].group) then RowAfterCancel(db.assignments[a], now) else db.assignments[a]
  }

  predicate HoldsStale(db: Tables, lag: nat, l: Id)
    requires l in db.leases
  {
    var a := db.leases[l].assignment;
    a in db.assignments && StaleGroup(db, lag, db.assignments[a].group)
    && db.assignments[a].state.Leased? && db.assignments[a].current == Some(l)
  }

  function LeaseAfterCancel(db: Tables, lag: nat, l: Id): Lease
    requires l in db.leases
  {
    if HoldsStale(db, lag, l) && db.leases[l].notice.NotCancelled? then db.leases[l].(notice := Requested) else db.leases[l]
  }

  /** `_cancel_stale_train_groups`. */
  function Cancelled(db: Tables, lag: nat, now: Time): Tables {
    var assignments := map a | a in db.assignments :: AssignmentAfterCancel(db, lag, now, a);
    db.(assignments := assignments,
        leases := map l | l in db.leases :: LeaseAfterCancel(db, lag, l),
        groups := map g | g in db.groups ::
          if StaleGroup(db, lag, g) then Recomputed(db.groups, assignments, g) else db.groups[g])
  }

  /** `_reconcile_stale_work`. */
  function Reconciled(db: Tables, now: Time): Tables {
    if db.settings.maxLag.Some? then Cancelled(db, db.settings.maxLag.value, now) else db
  }

  function ExpireLeases(db: Tables, retry: Retry, now: Time): Tables {
    Expired(Reconciled(db, now), retry, now)
  }

  // ---------------------------------------------------------------- policies and settings

  predicate VersionTaken(db: Tables, version: nat) {
    exists p :: p in db.policies && db.policies[p].manifest.version == version
  }

  function RecordPolicy(db: Tables, policy: Policy): Reply<()> {
    var id := policy.manifest.policyId;
    if policy.manifest.version == 0 then Reply(db, Failure(BadValue))
    else if policy.manifest.lineage != db.lineage then Reply(db, Failure(Conflict))
    else if id in db.policies && db.policies[id] == policy then Reply(db, Success(()))
    else if id in db.policies || VersionTaken(db, policy.manifest.version) then Reply(db, Failure(Conflict))
    else Reply(db.(policies := db.policies[id := policy]), Success(()))
  }

  function ActivatePolicy(db: Tables, id: Id, now: Time): Reply<()> {
    if id !in db.policies || db.policies[id].manifest.version < Version(db) then Reply(db, Failure(InvalidState))
    else Reply(Reconciled(db.(active := id), now), Success(()))
  }

  /** Recording and activation in one transaction: a refused activation rolls the recording back. */
  function RecordAndActivatePolicy(db: Tables, policy: Policy, now: Time): Reply<()> {
    var recorded := RecordPolicy(db, policy);
    if recorded.result.Failure? then recorded
    else
      var activated := ActivatePolicy(recorded.db, policy.manifest.policyId, now);
      if activated.result.Failure? then Reply(db, activated.result) else activated
  }

  function ConfigureScheduler(db: Tables, lag: int, preference: real, now: Time): Reply<()> {
    if lag < 0 || preference < 0.0 then Reply(db, Failure(BadValue))
    else
      var configured := db.(settings := db.settings.(maxLag := Some(lag), preference := Some(preference)));
      Reply(Reconciled(configured, now), Success(()))
  }

  predicate KnownPolicies(db: Tables, ids: seq<Id>) {
    forall p :: p in ids ==> p in db.policies
  }

  // ---------------------------------------------------------------- sessions

  function RegisterWorker(db: Tables, session: Id, worker: Id, capabilities: Capabilities): Reply<bool> {
    if capabilities.lineage != db.lineage then Reply(db, Failure(Incompatible))
    else if session in db.sessions then
      if db.sessions[session].worker != worker || db.sessions[session].capabilities != capabilities
      then Reply(db, Failure(Conflict))
      else Reply(db, Success(false))
    else Reply(db.(sessions := db.sessions[session := Session(worker, capabilities, None, None)]), Success(true))
  }

  predicate OwnSession(db: Tables, session: Id, worker: Id) {
    session in db.sessions && db.sessions[session].worker == worker
  }

  /** Whether `sent` fails to increase on the last reading of a session's or lease's own clock. */
  predicate NotAfter(sent: Time, last: Option<Time>) {
    last.Some? && sent <= last.value
  }

  predicate Renewable(l: Lease, a: Assignment, now: Time) {
    l.state.Active? && a.state.Leased? && now < l.expiresAt && !Passed(a.deadline, now)
  }

  function ExtendedTo(l: Lease, a: Assignment, now: Time, duration: real): Time {
    Capped(Later(l.expiresAt, now + duration), a.deadline)
  }

  /** What a heartbeat that names an existing lease does to it. */
  function BeatLease(l: Lease, a: Assignment, now: Time, duration: real): Lease {
    if l.notice.Requested? then l.(notice := Delivered(now))
    else if l.notice.NotCancelled? && Renewable(l, a, now) then l.(expiresAt := ExtendedTo(l, a, now, duration))
    else l
  }

  datatype Heartbeat = Heartbeat(worker: Id, session: Id, sentAt: Time, leases: seq<Id>, loaded: seq<Id>)

  datatype Renewal = Renewal(assignment: Id, lease: Id, expiresAt: Time)

  datatype HeartbeatAnswer = HeartbeatAnswer(renewals: seq<Renewal>, stops: seq<Id>)

  predicate Renewed(db: Tables, l: Id, now: Time) {
    && l in db.leases && db.leases[l].assignment in db.assignments && db.leases[l].notice.NotCancelled?
    && Renewable(db.leases[l], db.assignments[db.leases[l].assignment], now)
  }

  function Answer(db: Tables, ids: seq<Id>, now: Time, duration: real): HeartbeatAnswer {
    if ids == [] then HeartbeatAnswer([], [])
    else
      var l, rest := ids[|ids| - 1], Answer(db, ids[..|ids| - 1], now, duration);
      if Renewed(db, l, now)
      then rest.(renewals := rest.renewals + [Renewal(db.leases[l].assignment, l,
                   ExtendedTo(db.leases[l], db.assignments[db.leases[l].assignment], now, duration))])
      else rest.(stops := rest.stops + [l])
  }

  function LeaseAfterBeat(db: Tables, ids: seq<Id>, now: Time, duration: real, l: Id): Lease
    requires l in db.leases
  {
    if l in ids && db.leases[l].assignment in db.assignments
    then BeatLease(db.leases[l], db.assignments[db.leases[l].assignment], now, duration)
    else db.leases[l]
  }

  predicate ForeignLease(db: Tables, h: Heartbeat) {
    exists l :: l in h.leases && l in db.leases && (db.leases[l].worker != h.worker || db.leases[l].session != h.session)
  }

  function RecordHeartbeat(db: Tables, h: Heartbeat, duration: real, now: Time): Reply<HeartbeatAnswer> {
    if duration <= 0.0 then Reply(db, Failure(BadValue))
    else if !OwnSession(db, h.session, h.worker) then Reply(db, Failure(Incompatible))
    else if NotAfter(h.sentAt, db.sessions[h.session].lastHeartbeat) then Reply(db, Failure(Conflict))
    else if !KnownPolicies(db, h.loaded) then Reply(db, Failure(Incompatible))
    else if ForeignLease(db, h) then Reply(db, Failure(Conflict))
    else
      var d := Reconciled(db, now);
      Reply(d.(leases := map l | l in d.leases :: LeaseAfterBeat(d, h.leases, now, duration, l),
               sessions := d.sessions[h.session := db.sessions[h.session].(lastHeartbeat := Some(h.sentAt))]),
            Success(Answer(d, h.leases, now, duration)))
  }

  datatype RenewAnswer = Extended(expiresAt: Time) | Stop

  datatype Renew = Renew(lease: Id, worker: Id, session: Id, expected: Option<Id>, sentAt: Option<Time>, acknowledge: bool)

  function RenewLease(db: Tables, r: Renew, duration: real, now: Time): Reply<RenewAnswer> {
    var d := Reconciled(db, now);
    if duration <= 0.0 then Reply(db, Failure(BadValue))
    else if r.lease in d.leases && r.expected.Some? && d.leases[r.lease].assignment != r.expected.value
    then Reply(db, Failure(Conflict))
    else if r.lease !in d.leases || !d.leases[r.lease].state.Active? || d.leases[r.lease].expiresAt <= now
    then Reply(db, Failure(InvalidState))
    else
      var l := d.leases[r.lease];
      if l.worker != r.worker || l.session != r.session then Reply(db, Failure(Conflict))
      else if !l.notice.NotCancelled? then
        if !r.acknowledge then Reply(db, Failure(InvalidState))
        else
          var delivered := l.(notice := if l.notice.Requested? then Delivered(now) else l.notice);
          Reply(d.(leases := d.leases[r.lease := delivered]), Success(Stop))
      else if r.sentAt.Some? && NotAfter(r.sentAt.value, l.lastRenewSentAt) then Reply(db, Failure(Conflict))
      else if l.assignment !in d.assignments then Reply(db, Failure(NotFound))
      else if Passed(d.assignments[l.assignment].deadline, now) then Reply(db, Failure(InvalidState))
      else
        var expiresAt := ExtendedTo(l, d.assignments[l.assignment], now, duration);
        var renewed := l.(expiresAt := expiresAt, lastRenewSentAt := if r.sentAt.Some? then r.sentAt else l.lastRenewSentAt);
        Reply(d.(leases := d.leases[r.lease := renewed]), Success(Extended(expiresAt)))
  }

  // ---------------------------------------------------------------- lease requests

  function ValidateLeaseRequest(db: Tables, q: LeaseRequest, now: Time): Reply<Disposition> {
    if q.id in db.requests then
      if db.requests[q.id].digest != q then Reply(db, Failure(Conflict))
      else Reply(db, Success(db.requests[q.id].disposition))
    else if !OwnSession(db, q.session, q.worker) then Reply(db, Failure(Incompatible))
    else if NotAfter(q.sentAt, db.sessions[q.session].lastRequest) then Reply(db, Failure(Conflict))
    else if !KnownPolicies(db, q.loaded) then Reply(db, Failure(Incompatible))
    else if q.slots > db.sessions[q.session].capabilities.slots - |Live(db, q.session, now)| then Reply(db, Failure(NoCapacity))
    else
      Reply(db.(requests := db.requests[q.id := Request(q.session, q, Undecided)],
                sessions := db.sessions[q.session := db.sessions[q.session].(lastRequest := Some(q.sentAt))]),
            Success(Undecided))
  }

  function MarkNoWork(db: Tables, id: Id): Reply<Disposition> {
    if id !in db.requests then Reply(db, Failure(InvalidState))
    else if db.requests[id].disposition.Undecided?
    then Reply(db.(requests := db.requests[id := db.requests[id].(disposition := NoWork)]), Success(NoWork))
    else Reply(db, Success(db.requests[id].disposition))
  }

  predicate Schedulable(a: Assignment, now: Time) {
    Waiting(a) && a.availableAt <= now && !Passed(a.deadline, now) && a.cancellation.None?
  }

  function Candidates(db: Tables, now: Time): set<Id> {
    set a | a in db.assignments && Schedulable(db.assignments[a], now)
  }

  function SequenceOf(db: Tables, a: Id): nat {
    if a in db.assignments && db.assignments[a].group in db.groups then db.groups[db.assignments[a].group].sequence else 0
  }

  function IndexOf(db: Tables, a: Id): nat {
    if a in db.assignments then db.assignments[a].index else 0
  }

  /** ORDER BY sequence, group_index, assignment_id. */
  predicate Before(db: Tables, a: Id, b: Id) {
    || SequenceOf(db, a) < SequenceOf(db, b)
    || (SequenceOf(db, a) == SequenceOf(db, b)
        && (IndexOf(db, a) < IndexOf(db, b) || (IndexOf(db, a) == IndexOf(db, b) && a < b)))
  }

  ghost predicate IsFirst(db: Tables, s: set<Id>, a: Id) {
    a in s && forall b :: b in s && b != a ==> Before(db, a, b)
  }

  lemma {:induction false} HasFirst(db: Tables, s: set<Id>)
    requires s != {}
    ensures exists a :: IsFirst(db, s, a)
    decreases |s|
  {
    var x :| x in s;
    if s == {x} {
      assert IsFirst(db, s, x);
    } else {
      HasFirst(db, s - {x});
      var y :| IsFirst(db, s - {x}, y);
      forall b | b in s && b != x && b != y ensures Before(db, y, b) { assert b in s - {x}; }
      if Before(db, x, y) { assert IsFirst(db, s, x); } else { assert IsFirst(db, s, y); }
    }
  }

  ghost function First(db: Tables, s: set<Id>): (a: Id)
    requires s != {}
    ensures IsFirst(db, s, a)
  {
    HasFirst(db, s);
    var a :| IsFirst(db, s, a);
    a
  }

  function Loaded(db: Tables, s: set<Id>, loaded: seq<Id>): set<Id> {
    set a | a in s && a in db.assignments && db.assignments[a].policy in loaded
  }

  /** The oldest candidate, or while it is young the oldest one whose policy the worker has loaded. */
  ghost function Choice(db: Tables, s: set<Id>, loaded: seq<Id>, preference: real, now: Time): (a: Id)
    requires s != {} && s <= db.assignments.Keys
    ensures a in s
  {
    var oldest := First(db, s);
    if now - db.assignments[oldest].availableAt < preference && Loaded(db, s, loaded) != {}
    then First(db, Loaded(db, s, loaded))
    else oldest
  }

  function Issue(db: Tables, q: LeaseRequest, a: Id, l: Id, duration: real, now: Time): Tables
    requires a in db.assignments && q.id in db.requests
  {
    var row := db.assignments[a];
    var lease := Lease(a, row.attemptCount + 1, q.worker, q.session, now, Capped(now + duration, row.deadline), Active, None, NotCancelled, None);
    db.(leases := db.leases[l := lease],
        assignments := db.assignments[a := row.(state := Leased, attemptCount := row.attemptCount + 1, current := Some(l))],
        requests := db.requests[q.id := db.requests[q.id].(disposition := Granted(l))])
  }

  /** `lease_next_compatible`; `leaseId` is the new lease's generated identity. */
  ghost function LeaseNext(db: Tables, q: LeaseRequest, retry: Retry, duration: real, leaseId: Id, now: Time): Reply<Option<Id>> {
    if duration <= 0.0 then Reply(db, Failure(BadValue))
    else if q.id !in db.requests then Reply(db, Failure(InvalidState))
    else if db.requests[q.id].disposition.Granted? then Reply(db, Success(Some(db.requests[q.id].disposition.lease)))
    else if db.requests[q.id].disposition.NoWork? then Reply(db, Success(None))
    else if !OwnSession(db, q.session, q.worker) || !KnownPolicies(db, q.loaded) then Reply(db, Failure(Incompatible))
    else if db.settings.maxLag.None? || db.settings.preference.None? then Reply(db, Failure(InvalidState))
    else
      var d := Cancelled(Expired(db, retry, now), db.settings.maxLag.value, now);
      if |Live(d, q.session, now)| >= db.sessions[q.session].capabilities.slots || Candidates(d, now) == {}
      then Reply(d, Success(None))
      else if leaseId in d.leases then Reply(db, Failure(Integrity))
      else
        var a := Choice(d, Candidates(d, now), q.loaded, db.settings.preference.value, now);
        Reply(Issue(d, q, a, leaseId, duration, now), Success(Some(leaseId)))
  }

  /** `_lease_request_can_generate`. */
  predicate CanGenerate(db: Tables, q: LeaseRequest, now: Time) {
    && q.id in db.requests && db.requests[q.id].disposition.Undecided?
    && OwnSession(db, q.session, q.worker)
    && |Live(db, q.session, now)| < db.sessions[q.session].capabilities.slots
    && Candidates(db, now) == {}
  }

  // ---------------------------------------------------------------- envelopes

  datatype Acknowledgement = Acknowledgement(duplicate: bool, terminal: bool)

  function ActiveError(db: Tables, a: Id, attempt: nat, l: Id, worker: Id, session: Id, now: Time): Option<Error> {
    if a !in db.assignments then Some(NotFound)
    else if
      || l !in db.leases || db.leases[l].assignment != a || db.leases[l].attempt != attempt
      || db.leases[l].worker != worker || db.leases[l].session != session || !db.leases[l].state.Active?
      || !db.assignments[a].state.Leased? || db.assignments[a].current != Some(l)
    then Some(Conflict)
    else if db.leases[l].expiresAt <= now || Passed(db.assignments[a].deadline, now) then Some(InvalidState)
    else None
  }

  function ResultError(db: Tables, e: ResultEnvelope, now: Time): Option<Error> {
    var error := ActiveError(db, e.assignment, e.attempt, e.lease, e.worker, e.session, now);
    if error.Some? then error
    else
      var policy := db.assignments[e.assignment].policy;
      if e.requestedPolicy != policy then Some(Conflict)
      else if policy !in db.policies || db.policies[policy].manifest != e.requestedDigest then Some(Conflict)
      else None
  }

  /** `_existing_terminal`: nothing yet, a duplicate, or a conflict. */
  function ExistingTerminal(db: Tables, a: Id, l: Id, digest: ResultEnvelope): Result<Option<Acknowledgement>, Error> {
    if a !in db.assignments || (db.assignments[a].accepted.None? && db.assignments[a].outcome.None?) then Success(None)
    else if db.assignments[a].accepted.None? then Failure(Conflict)
    else if db.assignments[a].accepted.value != Acceptance(l, digest) then Failure(Conflict)
    else Success(Some(Acknowledgement(true, true)))
  }

  function CommitResult(db: Tables, e: ResultEnvelope, now: Time): Tables
    requires e.assignment in db.assignments && e.lease in db.leases
  {
    RecomputeGroup(
      db.(assignments := db.assignments[e.assignment := RowAfterResult(db.assignments[e.assignment], e, now)],
          leases := db.leases[e.lease := db.leases[e.lease].(state := LeaseSucceeded)]),
      db.assignments[e.assignment].group)
  }

  function AcceptResult(db: Tables, e: ResultEnvelope, now: Time): Reply<Acknowledgement> {
    var existing := ExistingTerminal(db, e.assignment, e.lease, e);
    if existing.Failure? then Reply(db, Failure(existing.error))
    else if existing.value.Some? then Reply(db, Success(existing.value.value))
    else
      var error := ResultError(db, e, now);
      if error.Some? then Reply(db, Failure(error.value))
      else Reply(CommitResult(db, e, now), Success(Acknowledgement(false, true)))
  }

  function ExistingFailure(db: Tables, e: FailureEnvelope): Result<Option<Acknowledgement>, Error> {
    if e.lease !in db.leases || db.leases[e.lease].failure.None? then Success(None)
    else if db.leases[e.lease].assignment != e.assignment || db.leases[e.lease].failure.value.digest != e then Failure(Conflict)
    else Success(Some(Acknowledgement(true, db.leases[e.lease].failure.value.terminal)))
  }

  function CommitFailure(db: Tables, retry: Retry, e: FailureEnvelope, now: Time): Tables
    requires e.assignment in db.assignments && e.lease in db.leases
  {
    var row := RowAfterFailure(db.assignments[e.assignment], !db.leases[e.lease].notice.NotCancelled?, retry, e, now);
    RecomputeGroup(
      db.(assignments := db.assignments[e.assignment := row],
          leases := db.leases[e.lease := db.leases[e.lease].(state := LeaseFailed, failure := Some(FailureRecord(e, Terminal(row))))]),
      row.group)
  }

  function AcceptFailure(db: Tables, retry: Retry, e: FailureEnvelope, now: Time): Reply<Acknowledgement> {
    var existing := ExistingFailure(db, e);
    if existing.Failure? then Reply(db, Failure(existing.error))
    else if existing.value.Some? then Reply(db, Success(existing.value.value))
    else
      var error := ActiveError(db, e.assignment, e.attempt, e.lease, e.worker, e.session, now);
      if error.Some? then Reply(db, Failure(error.value))
      else
        var d := CommitFailure(db, retry, e, now);
        Reply(d, Success(Acknowledgement(false, Terminal(d.assignments[e.assignment]))))
  }

  // ---------------------------------------------------------------- sources and groups

  function Enabled(sources: map<Id, Source>, kind: Option<Kind>): set<Id> {
    set s | s in sources && sources[s].spec.enabled && (kind.None? || sources[s].spec.kind == kind.value)
  }

  /** ORDER BY virtual_finish, source_id. */
  predicate Ahead(sources: map<Id, Source>, s: Id, t: Id)
    requires s in sources && t in sources
  {
    sources[s].virtualFinish < sources[t].virtualFinish || (sources[s].virtualFinish == sources[t].virtualFinish && s < t)
  }

  ghost predicate IsNext(sources: map<Id, Source>, among: set<Id>, s: Id)
    requires among <= sources.Keys
  {
    s in among && forall t :: t in among && t != s ==> Ahead(sources, s, t)
  }

  lemma {:induction false} HasNext(sources: map<Id, Source>, among: set<Id>)
    requires among != {} && among <= sources.Keys
    ensures exists s :: IsNext(sources, among, s)
    decreases |among|
  {
    var x :| x in among;
    if among == {x} {
      assert IsNext(sources, among, x);
    } else {
      HasNext(sources, among - {x});
      var y :| IsNext(sources, among - {x}, y);
      forall t | t in among && t != x && t != y ensures Ahead(sources, y, t) { assert t in among - {x}; }
      if Ahead(sources, x, y) { assert IsNext(sources, among, x); } else { assert IsNext(sources, among, y); }
    }
  }

  ghost function Next(sources: map<Id, Source>, among: set<Id>): (s: Id)
    requires among != {} && among <= sources.Keys
    ensures IsNext(sources, among, s)
  {
    HasNext(sources, among);
    var s :| IsNext(sources, among, s);
    s
  }

  /** The cost of one group to its source. */
  function Cost(s: SourceSpec): (c: real)
    requires s.weight > 0.0
    ensures c >= 0.0 && (s.groupSize > 0 ==> c > 0.0)
  {
    s.groupSize as real / s.weight
  }

  /** The virtual finish of a source registered now. */
  ghost function LeastFinish(sources: map<Id, Source>): real {
    if Enabled(sources, None) == {} then 0.0 else sources[Next(sources, Enabled(sources, None))].virtualFinish
  }

  ghost function RegisterSource(db: Tables, id: Id, spec: SourceSpec): Reply<()> {
    if id in db.sources then
      if db.sources[id].spec == spec then Reply(db, Success(())) else Reply(db, Failure(Conflict))
    else Reply(db.(sources := db.sources[id := Source(spec, LeastFinish(db.sources), 0)]), Success(()))
  }

  function Advanced(s: Source): Source
    requires s.spec.weight > 0.0
  {
    s.(cursor := s.cursor + 1, virtualFinish := s.virtualFinish + Cost(s.spec))
  }

  function NewRow(spec: SourceSpec, policy: Id, g: Id, index: nat, now: Time): Assignment {
    Assignment(g, index, policy, spec.maxAttempts, now, if spec.timeout.Some? then Some(now + spec.timeout.value) else None,
               0, now, Pending, None, None, None, None)
  }

  /** The group's first `n` assignment rows, keyed by the factory's second to (n+1)-th identities. */
  function NewRows(spec: SourceSpec, policy: Id, g: Id, ids: nat -> Id, now: Time, n: nat): map<Id, Assignment> {
    if n == 0 then map[] else NewRows(spec, policy, g, ids, now, n - 1)[ids(n) := NewRow(spec, policy, g, n - 1, now)]
  }

  /** No identity from the factory repeats or is already a key. */
  ghost predicate FreshIds(db: Tables, ids: nat -> Id, n: nat) {
    && ids(0) !in db.groups
    && (forall i :: 1 <= i <= n ==> ids(i) !in db.assignments)
    && (forall i, j :: 1 <= i < j <= n ==> ids(i) != ids(j))
  }

  ghost predicate KeyTaken(db: Tables, key: CreationKey) {
    exists g :: g in db.groups && db.groups[g].key == key
  }

  ghost function Created(db: Tables, s: Id, ids: nat -> Id, now: Time): Tables
    requires s in db.sources && SpecOk(db.sources[s].spec)
  {
    var source := db.sources[s];
    var spec := source.spec;
    var group := Group(db.active, spec.kind, spec.groupSize, spec.tasks[source.cursor % |spec.tasks|], now,
                       Occurrence(s, source.cursor), db.settings.nextSequence, Collecting);
    db.(settings := db.settings.(nextSequence := db.settings.nextSequence + 1),
        groups := db.groups[ids(0) := group],
        assignments := db.assignments + NewRows(spec, db.active, ids(0), ids, now, spec.groupSize),
        sources := db.sources[s := Advanced(source)])
  }

  /** `create_next_group` with the identity factory's answers `ids`. */
  ghost function CreateNextGroup(db: Tables, kind: Option<Kind>, ids: nat -> Id, now: Time): Reply<Option<Id>>
    requires forall s :: s in db.sources ==> SpecOk(db.sources[s].spec)
  {
    if Enabled(db.sources, kind) == {} then Reply(db, Success(None))
    else
      var s := Next(db.sources, Enabled(db.sources, kind));
      assert SpecOk(db.sources[s].spec);
      var key := Occurrence(s, db.sources[s].cursor);
      if KeyTaken(db, key) then
        var g :| g in db.groups && db.groups[g].key == key;
        if |Members(db.assignments, g)| != db.sources[s].spec.groupSize then Reply(db, Failure(Conflict))
        else Reply(db.(sources := db.sources[s := Advanced(db.sources[s])]), Success(Some(g)))
      else if !FreshIds(db, ids, db.sources[s].spec.groupSize) then Reply(db, Failure(Integrity))
      else Reply(Created(db, s, ids, now), Success(Some(ids(0))))
  }
}
