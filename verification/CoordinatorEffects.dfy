/**
 What expiry, cancellation, renewal and submission do to leases and assignments, in the columns of the tables
 alone: which leases end and which live on, by how much a renewal extends, and which envelopes are accepted.
 */
module CoordinatorEffects {
  import opened Wrappers
  import opened CoordinatorTables
  import opened CoordinatorOperations
  import opened CoordinatorInvariants
  import opened CoordinatorExpiry
  import opened CoordinatorRuns

  // ---------------------------------------------------------------- expiry

  /** The lease has run out, or the assignment's deadline has passed. */
  predicate OutOfTime(lease: Lease, row: Assignment, now: Time) {
    lease.expiresAt <= now || (row.deadline.Some? && row.deadline.value <= now)
  }

  predicate OpenRow(row: Assignment) {
    row.state == Pending || row.state == RetryWait
  }

  /** Exactly the active leases that are out of time expire; nothing else about a lease changes. */
  lemma ExpiryOfLease(db: Tables, retry: Retry, now: Time, l: Id)
    requires l in db.leases && db.leases[l].assignment in db.assignments
    ensures var to := Expired(db, retry, now);
            && to.leases.Keys == db.leases.Keys
            && to.leases[l] == if db.leases[l].state == Active && OutOfTime(db.leases[l], db.assignments[db.leases[l].assignment], now)
                               then db.leases[l].(state := LeaseExpired) else db.leases[l]
  {
  }

  /** The attempt under lease `l` ends: another one after the back-off, or the end for the reason named. */
  predicate AttemptEnds(row: Assignment, to: Assignment, retry: Retry, now: Time, retryable: bool, l: Id, digest: Option<Digest>) {
    var next := now + Delay(retry, row.attemptCount);
    var intime := row.deadline.None? || next < row.deadline.value;
    if retryable && row.attemptCount < row.maxAttempts && intime
    then to == row.(state := RetryWait, availableAt := next, current := None)
    else
      exists kind ::
        && to == row.(state := Failed, current := None, outcome := Some(Outcome(kind, Some(l), digest, now)))
        && (kind == AttemptsExhausted <==> row.attemptCount == row.maxAttempts)
        && (kind == FailureOutcome <==> row.attemptCount < row.maxAttempts && !retryable)
        && (kind == DeadlineExceeded <==> row.attemptCount < row.maxAttempts && retryable)
  }

  lemma AttemptEnding(row: Assignment, retry: Retry, now: Time, retryable: bool, l: Id, digest: Option<Digest>)
    requires row.attemptCount <= row.maxAttempts
    ensures AttemptEnds(row, RetryOrFail(row, retry, now, retryable, l, digest), retry, now, retryable, l, digest)
  {
    hide Delay;
    var to := RetryOrFail(row, retry, now, retryable, l, digest);
    if to.state.Failed? && to.outcome.Some? {
      assert to == row.(state := Failed, current := None, outcome := Some(Outcome(to.outcome.value.kind, Some(l), digest, now)));
    }
  }

  /** A cancelled assignment ends with its lease. */
  predicate CancelledEnds(row: Assignment, to: Assignment, now: Time, l: Id, digest: Option<Digest>) {
    to == row.(state := Failed, current := None, cancellation := Some(true), outcome := Some(Outcome(FailureOutcome, Some(l), digest, now)))
  }

  /**
   A leased assignment keeps its lease while that has time left; otherwise the attempt ends, for good if the lease is
   cancelled. A waiting one fails once its deadline has passed. A finished one stays.
   */
  lemma ExpiryOfRow(db: Tables, retry: Retry, now: Time, a: Id)
    requires RowsOk(db) && LinksOk(db) && HeldOk(db) && a in db.assignments
    ensures var row, to := db.assignments[a], Expired(db, retry, now).assignments[a];
            && (row.state == Leased ==>
                  && row.current.Some? && row.current.value in db.leases
                  && var l := row.current.value;
                     if !OutOfTime(db.leases[l], row, now) then to == row
                     else if db.leases[l].notice == NotCancelled then AttemptEnds(row, to, retry, now, true, l, None)
                     else CancelledEnds(row, to, now, l, None))
            && (OpenRow(row) ==>
                  to == if row.deadline.Some? && row.deadline.value <= now
                        then row.(state := Failed, current := None, outcome := Some(Outcome(DeadlineExceeded, None, None, now))) else row)
            && (row.state == Succeeded || row.state == Failed ==> to == row)
  {
    hide AttemptEnds;
    var row := db.assignments[a];
    assert RowOk(row);
    if row.current.Some? {
      HeldLease(db, a);
      AttemptEnding(row, retry, now, true, row.current.value, None);
    }
    hide RowsOk;
    hide LinksOk;
    hide HeldOk;
    hide RetryOrFail;
  }

  // ---------------------------------------------------------------- cancellation of stale train work

  /** A train assignment whose policy is more than `lag` versions behind the active one. */
  predicate Outdated(db: Tables, lag: nat, a: Id) {
    && a in db.assignments && db.assignments[a].group in db.groups && db.groups[db.assignments[a].group].kind == Train
    && db.groups[db.assignments[a].group].policy in db.policies && db.active in db.policies
    && db.policies[db.active].manifest.version
       > db.policies[db.groups[db.assignments[a].group].policy].manifest.version + lag
  }

  /** Exactly the outdated open work is cancelled: what waits ends, what is leased is marked, with its lease notified. */
  lemma CancellationOfRow(db: Tables, lag: nat, now: Time, a: Id)
    requires RowsOk(db) && a in db.assignments && db.active in db.policies
    ensures var row, to := db.assignments[a], Cancelled(db, lag, now).assignments[a];
            if !Outdated(db, lag, a) then to == row
            else if OpenRow(row) then
              to == row.(state := Failed, cancellation := Some(true), outcome := Some(Outcome(FailureOutcome, None, None, now)))
            else if row.state == Leased then to == row.(cancellation := Some(false))
            else to == row
  {
    assert RowOk(db.assignments[a]);
    hide RowsOk;
  }

  lemma CancellationOfLease(db: Tables, lag: nat, now: Time, l: Id)
    requires RowsOk(db) && LinksOk(db) && l in db.leases && db.active in db.policies
    ensures var lease, to := db.leases[l], Cancelled(db, lag, now).leases[l];
            to == if lease.state == Active && Outdated(db, lag, lease.assignment) && lease.notice == NotCancelled
                  then lease.(notice := Requested) else lease
  {
    var a := db.leases[l].assignment;
    assert LinkOk(l, db.leases[l], db.assignments[a]);
    assert RowOk(db.assignments[a]);
    hide RowsOk;
    hide LinksOk;
  }

  /** The assignment after a reconciliation: cancelled if it is open and outdated, otherwise as it was. */
  predicate RowReconciled(row: Assignment, to: Assignment, outdated: bool, now: Time) {
    if outdated && OpenRow(row)
    then to == row.(state := Failed, cancellation := Some(true), outcome := Some(Outcome(FailureOutcome, None, None, now)))
    else if outdated && row.state == Leased then to == row.(cancellation := Some(false))
    else to == row
  }

  predicate LeaseReconciled(lease: Lease, to: Lease, outdated: bool) {
    to == if outdated && lease.state == Active && lease.notice == NotCancelled then lease.(notice := Requested) else lease
  }

  /** `to` has cancelled exactly what is outdated in `db` under `lag`, if there is one. */
  ghost predicate OutdatedCancelled(db: Tables, to: Tables, lag: Option<nat>, now: Time) {
    && to == db.(assignments := to.assignments, leases := to.leases, groups := to.groups)
    && to.assignments.Keys == db.assignments.Keys && to.leases.Keys == db.leases.Keys && to.groups.Keys == db.groups.Keys
    && (forall a :: a in db.assignments ==>
          RowReconciled(db.assignments[a], to.assignments[a], lag.Some? && Outdated(db, lag.value, a), now))
    && (forall l :: l in db.leases ==>
          LeaseReconciled(db.leases[l], to.leases[l], lag.Some? && Outdated(db, lag.value, db.leases[l].assignment)))
    && (forall g :: g in db.groups ==> to.groups[g] == db.groups[g].(state := to.groups[g].state))
  }

  lemma CancelledRest(db: Tables, lag: nat, now: Time)
    ensures var to := Cancelled(db, lag, now);
            && to == db.(assignments := to.assignments, leases := to.leases, groups := to.groups)
            && to.assignments.Keys == db.assignments.Keys && to.leases.Keys == db.leases.Keys && to.groups.Keys == db.groups.Keys
            && (forall g :: g in db.groups ==> to.groups[g] == db.groups[g].(state := to.groups[g].state))
  {
    hide StaleGroup;
    hide Settled;
  }

  /** Reconciling cancels exactly the outdated work, and nothing when no lag is configured. */
  lemma ReconciledExactly(db: Tables, now: Time)
    requires RowsOk(db) && LinksOk(db) && db.active in db.policies
    ensures OutdatedCancelled(db, Reconciled(db, now), db.settings.maxLag, now)
  {
    hide RowsOk;
    hide LinksOk;
    hide Cancelled;
    hide Outdated;
    if db.settings.maxLag.Some? {
      var lag := db.settings.maxLag.value;
      CancelledRest(db, lag, now);
      forall a | a in db.assignments
        ensures RowReconciled(db.assignments[a], Cancelled(db, lag, now).assignments[a], Outdated(db, lag, a), now)
      {
        CancellationOfRow(db, lag, now, a);
      }
      forall l | l in db.leases
        ensures LeaseReconciled(db.leases[l], Cancelled(db, lag, now).leases[l], Outdated(db, lag, db.leases[l].assignment))
      {
        CancellationOfLease(db, lag, now, l);
      }
    }
  }

  // ---------------------------------------------------------------- how a lease can end

  ghost predicate StatesKept(db: Tables, to: Tables) {
    forall l :: l in db.leases ==> l in to.leases && to.leases[l].state == db.leases[l].state
  }

  lemma ReconciledStates(db: Tables, now: Time)
    ensures StatesKept(db, Reconciled(db, now)) && Reconciled(db, now).leases.Keys == db.leases.Keys
  {
  }

  /** What else a reconciliation leaves of a lease and of its assignment's deadline. */
  lemma ReconciledTimes(db: Tables, now: Time, l: Id)
    requires l in db.leases && db.leases[l].assignment in db.assignments
    ensures var d := Reconciled(db, now);
            && l in d.leases && d.leases[l].assignment == db.leases[l].assignment && d.leases[l].expiresAt == db.leases[l].expiresAt
            && d.leases[l].assignment in d.assignments
            && d.assignments[d.leases[l].assignment].deadline == db.assignments[db.leases[l].assignment].deadline
  {
    hide StaleGroup;
  }

  lemma PolicyStates(db: Tables, policy: Policy, id: Id, lag: int, preference: real, now: Time)
    ensures StatesKept(db, RecordPolicy(db, policy).db) && StatesKept(db, ActivatePolicy(db, id, now).db)
    ensures StatesKept(db, RecordAndActivatePolicy(db, policy, now).db)
    ensures StatesKept(db, ConfigureScheduler(db, lag, preference, now).db)
  {
    hide Reconciled;
    ReconciledStates(db.(active := id), now);
    var recorded := RecordPolicy(db, policy).db;
    ReconciledStates(recorded.(active := policy.manifest.policyId), now);
    if lag >= 0 { ReconciledStates(db.(settings := db.settings.(maxLag := Some(lag), preference := Some(preference))), now); }
  }

  lemma BeatStates(db: Tables, h: Heartbeat, duration: real, now: Time)
    ensures StatesKept(db, RecordHeartbeat(db, h, duration, now).db)
  {
    hide Reconciled;
    hide Answer;
    hide ExtendedTo;
    ReconciledStates(db, now);
  }

  lemma RenewStates(db: Tables, r: Renew, duration: real, now: Time)
    ensures StatesKept(db, RenewLease(db, r, duration, now).db)
  {
    hide Reconciled;
    hide ExtendedTo;
    ReconciledStates(db, now);
  }

  lemma RegisterStates(db: Tables, session: Id, worker: Id, capabilities: Capabilities)
    ensures RegisterWorker(db, session, worker, capabilities).db.leases == db.leases
  {
  }

  lemma NoWorkStates(db: Tables, id: Id)
    ensures MarkNoWork(db, id).db.leases == db.leases
  {
  }

  lemma SourceStates(db: Tables, id: Id, spec: SourceSpec)
    ensures RegisterSource(db, id, spec).db.leases == db.leases
  {
    hide LeastFinish;
  }

  lemma ValidateStates(db: Tables, q: LeaseRequest, now: Time)
    ensures ValidateLeaseRequest(db, q, now).db.leases == db.leases
  {
    hide Live;
  }

  lemma GroupStates(db: Tables, kind: Option<Kind>, ids: nat -> Id, now: Time)
    requires forall s :: s in db.sources ==> SpecOk(db.sources[s].spec)
    ensures CreateNextGroup(db, kind, ids, now).db.leases == db.leases
  {
    hide SpecOk;
    hide NewRows;
    hide FreshIds;
  }

  /** Leasing releases first, and then at most adds the new lease. */
  lemma LeaseNextShape(db: Tables, q: LeaseRequest, retry: Retry, duration: real, leaseId: Id, now: Time)
    ensures var to := LeaseNext(db, q, retry, duration, leaseId, now).db;
            || to == db
            || (db.settings.maxLag.Some?
                && var d := Cancelled(Expired(db, retry, now), db.settings.maxLag.value, now);
                   to.leases == d.leases || (leaseId !in d.leases && leaseId in to.leases && to.leases == d.leases[leaseId := to.leases[leaseId]]))
  {
    hide Live;
    hide Choice;
    hide Candidates;
    hide Expired;
    hide Cancelled;
  }

  lemma LeaseNextStates(db: Tables, q: LeaseRequest, retry: Retry, duration: real, leaseId: Id, now: Time, l: Id)
    requires LinksOk(db) && l in db.leases
    ensures var to := LeaseNext(db, q, retry, duration, leaseId, now).db;
            && l in to.leases
            && (to.leases[l].state == db.leases[l].state
                || (db.leases[l].state == Active && to.leases[l].state == LeaseExpired
                    && OutOfTime(db.leases[l], db.assignments[db.leases[l].assignment], now)))
  {
    hide OutOfTime;
    assert db.leases[l].assignment in db.assignments;
    LeaseNextShape(db, q, retry, duration, leaseId, now);
    hide LeaseNext;
    ExpiryOfLease(db, retry, now, l);
    var e := Expired(db, retry, now);
    hide Expired;
    if db.settings.maxLag.Some? { CancelledStates(e, db.settings.maxLag.value, now); }
    hide Cancelled;
  }

  lemma CancelledStates(db: Tables, lag: nat, now: Time)
    ensures StatesKept(db, Cancelled(db, lag, now))
  {
  }

  lemma ExpireStates(db: Tables, retry: Retry, now: Time, l: Id)
    requires LinksOk(db) && l in db.leases
    ensures var to := ExpireLeases(db, retry, now);
            && l in to.leases
            && to.leases[l].state == if db.leases[l].state == Active && OutOfTime(db.leases[l], db.assignments[db.leases[l].assignment], now)
                                     then LeaseExpired else db.leases[l].state
  {
    assert db.leases[l].assignment in db.assignments;
    ReconciledStates(db, now);
    ReconciledTimes(db, now, l);
    hide Reconciled;
    ExpiryOfLease(Reconciled(db, now), retry, now, l);
    hide Expired;
  }

  lemma ResultStates(db: Tables, e: ResultEnvelope, now: Time, l: Id)
    requires l in db.leases
    ensures var to := AcceptResult(db, e, now).db;
            && l in to.leases
            && (to.leases[l].state == db.leases[l].state || (db.leases[l].state == Active && to.leases[l].state == LeaseSucceeded && e.lease == l))
  {
    hide RowAfterResult;
    hide Settled;
  }

  lemma FailureStates(db: Tables, retry: Retry, e: FailureEnvelope, now: Time, l: Id)
    requires l in db.leases
    ensures var to := AcceptFailure(db, retry, e, now).db;
            && l in to.leases
            && (to.leases[l].state == db.leases[l].state || (db.leases[l].state == Active && to.leases[l].state == LeaseFailed && e.lease == l))
  {
    hide RowAfterFailure;
    hide Settled;
  }

  /** A lease stays active until its own result or failure is accepted, or it is out of time and expires. */
  predicate EndsFor(db: Tables, to: Tables, e: Event, now: Time, l: Id)
    requires l in db.leases && l in to.leases && db.leases[l].assignment in db.assignments
  {
    || to.leases[l].state == db.leases[l].state
    || (db.leases[l].state == Active && to.leases[l].state == LeaseExpired
        && OutOfTime(db.leases[l], db.assignments[db.leases[l].assignment], now))
    || (db.leases[l].state == Active && to.leases[l].state == LeaseSucceeded && e.ResultEvent? && e.result.lease == l)
    || (db.leases[l].state == Active && to.leases[l].state == LeaseFailed && e.FailureEvent? && e.failure.lease == l)
  }

  /** The steps that end no lease. */
  predicate EndsNothing(e: Event) {
    !e.LeaseEvent? && !e.ExpireEvent? && !e.ResultEvent? && !e.FailureEvent?
  }

  lemma QuietStates(db: Tables, to: Tables, retry: Retry, e: Event, now: Time)
    requires Step(db, to, retry, e, now) && EndsNothing(e)
    ensures StatesKept(db, to)
  {
    hide StatesKept;
    hide RecordPolicy;
    hide ActivatePolicy;
    hide RecordAndActivatePolicy;
    hide ConfigureScheduler;
    hide RegisterWorker;
    hide RecordHeartbeat;
    hide RenewLease;
    hide ValidateLeaseRequest;
    hide MarkNoWork;
    hide RegisterSource;
    hide CreateNextGroup;
    hide SpecOk;
    match e
    case RecordEvent(policy) => PolicyStates(db, policy, 0, 0, 0.0, now);
    case ActivateEvent(id) => PolicyStates(db, Policy(Manifest(0, 0, 0, None, 0), 0), id, 0, 0.0, now);
    case RecordAndActivateEvent(policy) => PolicyStates(db, policy, 0, 0, 0.0, now);
    case ConfigureEvent(lag, preference) => PolicyStates(db, Policy(Manifest(0, 0, 0, None, 0), 0), 0, lag, preference, now);
    case HeartbeatEvent(h, duration) => BeatStates(db, h, duration, now);
    case RenewEvent(r, duration) => RenewStates(db, r, duration, now);
    case RegisterEvent(session, worker, capabilities) =>
      RegisterStates(db, session, worker, capabilities);
      SameStates(db, to);
    case RequestEvent(q) =>
      ValidateStates(db, q, now);
      SameStates(db, to);
    case NoWorkEvent(id) =>
      NoWorkStates(db, id);
      SameStates(db, to);
    case SourceEvent(id, spec) =>
      SourceStates(db, id, spec);
      SameStates(db, to);
    case GroupEvent(kind, ids) =>
      GroupStates(db, kind, ids, now);
      SameStates(db, to);
  }

  lemma SameStates(db: Tables, to: Tables)
    ensures to.leases == db.leases ==> StatesKept(db, to)
  {
  }

  lemma LoudStates(db: Tables, to: Tables, retry: Retry, e: Event, now: Time, l: Id)
    requires LinksOk(db) && Step(db, to, retry, e, now) && !EndsNothing(e) && l in db.leases && db.leases[l].assignment in db.assignments
    ensures l in to.leases && EndsFor(db, to, e, now, l)
  {
    hide LinksOk;
    hide OutOfTime;
    hide RecordPolicy;
    hide ActivatePolicy;
    hide RecordAndActivatePolicy;
    hide ConfigureScheduler;
    hide RegisterWorker;
    hide RecordHeartbeat;
    hide RenewLease;
    hide ValidateLeaseRequest;
    hide MarkNoWork;
    hide RegisterSource;
    hide CreateNextGroup;
    hide SpecOk;
    hide LeaseNext;
    hide ExpireLeases;
    hide AcceptResult;
    hide AcceptFailure;
    match e
    case LeaseEvent(q, duration, lease) => LeaseNextStates(db, q, retry, duration, lease, now, l);
    case ExpireEvent => ExpireStates(db, retry, now, l);
    case ResultEvent(result) => ResultStates(db, result, now, l);
    case FailureEvent(failure) => FailureStates(db, retry, failure, now, l);
  }

  lemma LeaseEndsFor(db: Tables, to: Tables, retry: Retry, e: Event, now: Time, l: Id)
    requires LinksOk(db) && Step(db, to, retry, e, now) && l in db.leases
    ensures l in to.leases && db.leases[l].assignment in db.assignments && EndsFor(db, to, e, now, l)
  {
    hide Step;
    hide LinkOk;
    if EndsNothing(e) { QuietStates(db, to, retry, e, now); } else { LoudStates(db, to, retry, e, now, l); }
  }

  /** Over every run a lease that expired was out of time at the step that expired it. */
  lemma {:induction false} ExpiredOutOfTime(states: seq<Tables>, events: seq<Timed>, retry: Retry, start: Time, i: nat, j: nat, l: Id)
    requires IsRun(states, events, retry) && StartsAt(states, events, start) && i <= j <= |events|
    requires l in states[i].leases && states[i].leases[l].state == Active
    requires l in states[j].leases && states[j].leases[l].state == LeaseExpired
    ensures exists m: nat ::
      && i <= m < j && l in states[m].leases && states[m].leases[l].assignment in states[m].assignments
      && OutOfTime(states[m].leases[l], states[m].assignments[states[m].leases[l].assignment], events[m].now)
    decreases j - i
  {
    hide Step;
    hide OutOfTime;
    if i < j {
      RunLinks(states, events, retry, start, j - 1);
      RunEvolves(states, events, retry, start, i, j - 1);
      LeaseEndsFor(states[j - 1], states[j], retry, events[j - 1].event, events[j - 1].now, l);
      if states[j - 1].leases[l].state == LeaseExpired { ExpiredOutOfTime(states, events, retry, start, i, j - 1, l); }
    }
  }

  lemma RunLinks(states: seq<Tables>, events: seq<Timed>, retry: Retry, start: Time, i: nat)
    requires IsRun(states, events, retry) && StartsAt(states, events, start) && i <= |events|
    ensures RowsOk(states[i]) && LinksOk(states[i]) && HeldOk(states[i]) && states[i].active in states[i].policies
  {
    RunKeeps(states, events, retry, start, i);
    hide IsRun;
    hide StartsAt;
    hide RowsOk;
    hide LinksOk;
    hide HeldOk;
    hide NumberedOk;
    hide MembersOk;
    hide ReadyOk;
    hide KeysOk;
    hide SessionsOk;
    hide StaleOk;
    hide CapacityOk;
    hide ClockOk;
  }

  /** With a lag configured, outdated train work has ended or is under a cancelled lease, at every state of a run. */
  lemma OutdatedHandled(states: seq<Tables>, events: seq<Timed>, retry: Retry, start: Time, i: nat, a: Id)
    requires IsRun(states, events, retry) && StartsAt(states, events, start) && i <= |events| && states[i].settings.maxLag.Some?
    requires Outdated(states[i], states[i].settings.maxLag.value, a)
    ensures var row := states[i].assignments[a];
            || row.state == Succeeded || row.state == Failed
            || (row.state == Leased && row.current.Some? && row.current.value in states[i].leases
                && states[i].leases[row.current.value].notice != NotCancelled)
  {
    RunKeeps(states, events, retry, start, i);
    RunLinks(states, events, retry, start, i);
    hide IsRun;
    hide StartsAt;
    var db, now := states[i], TimeAt(events, start, i);
    RowFacts(db, now, a);
    hide Invariant;
    hide RowsOk;
    hide LinksOk;
    hide HeldOk;
    StaleWorkCancelled(db, now, a);
  }

  /** After `expire_leases` no active lease is out of time, and no open assignment is past its deadline. */
  lemma NothingOutOfTime(db: Tables, retry: Retry, now: Time, l: Id, a: Id)
    requires Invariant(db, now) && RetryOk(retry)
    ensures var to := ExpireLeases(db, retry, now);
            && (l in to.leases && to.leases[l].state == Active ==>
                  && to.leases[l].assignment in to.assignments
                  && !OutOfTime(to.leases[l], to.assignments[to.leases[l].assignment], now))
            && (a in to.assignments && OpenRow(to.assignments[a]) && to.assignments[a].deadline.Some? ==>
                  now < to.assignments[a].deadline.value)
  {
    hide Expired;
    hide Reconciled;
    hide Evolves;
    hide Invariant;
    hide OutOfTime;
    ReconciledInvariant(db, now);
    var d, to := Reconciled(db, now), ExpireLeases(db, retry, now);
    ExpiryBasis(d, retry, now);
    if l in to.leases { ClearedLease(d, retry, now, l); }
    if a in to.assignments { ClearedRow(d, retry, now, a); }
  }

  lemma ReconciledInvariant(db: Tables, now: Time)
    requires Invariant(db, now)
    ensures Invariant(Reconciled(db, now), now)
  {
    hide Reconciled;
    hide Evolves;
    hide Sound;
    hide CapacityOk;
    hide ClockOk;
    hide StaleOk;
    ReconciledKeeps(db, now);
  }

  lemma ExpiryBasis(d: Tables, retry: Retry, now: Time)
    requires Invariant(d, now)
    ensures Expired(d, retry, now).leases.Keys == d.leases.Keys && Expired(d, retry, now).assignments.Keys == d.assignments.Keys
    ensures RowsOk(d) && LinksOk(d) && HeldOk(d)
  {
  }

  lemma ClearedLease(d: Tables, retry: Retry, now: Time, l: Id)
    requires RowsOk(d) && LinksOk(d) && HeldOk(d) && l in d.leases
    ensures var to := Expired(d, retry, now);
            && l in to.leases && to.leases[l].assignment in to.assignments
            && (to.leases[l].state == Active ==> !OutOfTime(to.leases[l], to.assignments[to.leases[l].assignment], now))
  {
    var a := d.leases[l].assignment;
    assert LinkOk(l, d.leases[l], d.assignments[a]);
    ExpiryOfLease(d, retry, now, l);
    ExpiryDeadline(d, retry, now, a);
    hide Expired;
  }

  lemma ExpiryDeadline(d: Tables, retry: Retry, now: Time, a: Id)
    requires a in d.assignments
    ensures a in Expired(d, retry, now).assignments && Expired(d, retry, now).assignments[a].deadline == d.assignments[a].deadline
  {
    hide Delay;
  }

  lemma ClearedRow(d: Tables, retry: Retry, now: Time, a: Id)
    requires RowsOk(d) && LinksOk(d) && HeldOk(d) && a in d.assignments && RetryOk(retry)
    ensures var row := Expired(d, retry, now).assignments[a];
            OpenRow(row) && row.deadline.Some? ==> now < row.deadline.value
  {
    ExpiryOfRow(d, retry, now, a);
    assert RowOk(d.assignments[a]);
    DelayPositive(retry, d.assignments[a].attemptCount);
    hide Delay;
    hide Expired;
    hide RowsOk;
    hide LinksOk;
    hide HeldOk;
  }

  /** An assignment under a lease with time left keeps state and lease when leases are expired. */
  lemma HeldThroughExpiry(db: Tables, retry: Retry, now: Time, a: Id)
    requires Invariant(db, now) && a in db.assignments && db.assignments[a].state == Leased
    requires db.assignments[a].current.Some? && db.assignments[a].current.value in db.leases
    requires !OutOfTime(db.leases[db.assignments[a].current.value], db.assignments[a], now)
    ensures var to := ExpireLeases(db, retry, now);
            && to.assignments[a].state == Leased && to.assignments[a].current == db.assignments[a].current
            && to.assignments[a].attemptCount == db.assignments[a].attemptCount
            && to.leases[db.assignments[a].current.value].state == Active
  {
    var l := db.assignments[a].current.value;
    ReconciledInvariant(db, now);
    HeldLeaseOf(db, now, a);
    ReconciledRow(db, now, a);
    ReconciledTimes(db, now, l);
    ReconciledStates(db, now);
    var d := Reconciled(db, now);
    hide Reconciled;
    hide Expired;
    ExpiryBasis(d, retry, now);
    hide Invariant;
    hide RowsOk;
    hide LinksOk;
    hide HeldOk;
    ExpiryOfRow(d, retry, now, a);
    ExpiryOfLease(d, retry, now, l);
  }

  lemma HeldLeaseOf(db: Tables, now: Time, a: Id)
    requires Invariant(db, now) && a in db.assignments && db.assignments[a].current.Some?
    ensures var l := db.assignments[a].current.value;
            l in db.leases && db.leases[l].assignment == a && db.leases[l].state == Active
  {
    hide NumberedOk;
    hide MembersOk;
    hide ReadyOk;
    hide KeysOk;
    hide CatalogOk;
    hide SessionsOk;
    hide StaleOk;
    hide CapacityOk;
    hide ClockOk;
    HeldLease(db, a);
  }

  lemma ReconciledRow(db: Tables, now: Time, a: Id)
    requires a in db.assignments && db.assignments[a].state == Leased
    ensures var d := Reconciled(db, now);
            && a in d.assignments && d.assignments[a] == db.assignments[a].(cancellation := d.assignments[a].cancellation)
  {
    hide StaleGroup;
  }
}
