/** Fencing of old leases, replays of requests and envelopes, and progress of lease requests. */
module CoordinatorReplay {
  import opened Wrappers
  import opened CoordinatorTables
  import opened CoordinatorOperations
  import opened CoordinatorInvariants
  import opened CoordinatorExpiry
  import opened CoordinatorSteps
  import opened CoordinatorGrowth
  import opened CoordinatorRuns

  // ---------------------------------------------------------------- fencing

  /** A lease that is closed, or whose time has run out. */
  predicate Dead(db: Tables, l: Id, now: Time) {
    l in db.leases && (!db.leases[l].state.Active? || db.leases[l].expiresAt <= now)
  }

  lemma ReconciledDead(db: Tables, l: Id, now: Time)
    requires Dead(db, l, now)
    ensures Dead(Reconciled(db, now), l, now)
  {
  }

  lemma ExpiredDead(db: Tables, retry: Retry, l: Id, now: Time)
    requires Dead(db, l, now)
    ensures Dead(Expired(db, retry, now), l, now)
  {
  }

  lemma BeatDead(db: Tables, h: Heartbeat, duration: real, l: Id, now: Time)
    requires Dead(db, l, now)
    ensures Dead(RecordHeartbeat(db, h, duration, now).db, l, now)
  {
    hide Reconciled;
    hide Answer;
    ReconciledDead(db, l, now);
  }

  lemma RenewDead(db: Tables, r: Renew, duration: real, l: Id, now: Time)
    requires Dead(db, l, now)
    ensures Dead(RenewLease(db, r, duration, now).db, l, now)
  {
    hide Reconciled;
    hide ExtendedTo;
    ReconciledDead(db, l, now);
  }

  lemma LeaseNextDead(db: Tables, q: LeaseRequest, retry: Retry, duration: real, leaseId: Id, l: Id, now: Time)
    requires Dead(db, l, now)
    ensures Dead(LeaseNext(db, q, retry, duration, leaseId, now).db, l, now)
  {
    hide Expired;
    hide Live;
    hide Choice;
    ExpiredDead(db, retry, l, now);
  }

  lemma PolicyDead(db: Tables, policy: Policy, id: Id, l: Id, now: Time)
    requires Dead(db, l, now)
    ensures Dead(RecordPolicy(db, policy).db, l, now) && Dead(ActivatePolicy(db, id, now).db, l, now)
  {
    hide Reconciled;
    ReconciledDead(db.(active := id), l, now);
  }

  lemma ConfigureDead(db: Tables, lag: int, preference: real, l: Id, now: Time)
    requires Dead(db, l, now)
    ensures Dead(ConfigureScheduler(db, lag, preference, now).db, l, now)
  {
    hide Reconciled;
    if lag >= 0 { ReconciledDead(db.(settings := db.settings.(maxLag := Some(lag), preference := Some(preference))), l, now); }
  }

  lemma EnvelopeDead(db: Tables, retry: Retry, e: ResultEnvelope, f: FailureEnvelope, l: Id, now: Time)
    requires Dead(db, l, now)
    ensures Dead(AcceptResult(db, e, now).db, l, now) && Dead(AcceptFailure(db, retry, f, now).db, l, now)
  {
    hide RowAfterFailure;
    hide RowAfterResult;
  }

  lemma GroupDead(db: Tables, kind: Option<Kind>, ids: nat -> Id, l: Id, now: Time)
    requires Dead(db, l, now) && forall s :: s in db.sources ==> SpecOk(db.sources[s].spec)
    ensures Dead(CreateNextGroup(db, kind, ids, now).db, l, now)
  {
    hide NewRows;
    hide SpecOk;
  }

  /** No transaction revives a dead lease. */
  lemma StepDead(db: Tables, to: Tables, retry: Retry, e: Event, l: Id, now: Time)
    requires Dead(db, l, now) && Step(db, to, retry, e, now)
    ensures Dead(to, l, now)
  {
    hide RecordPolicy;
    hide ActivatePolicy;
    hide ConfigureScheduler;
    hide RecordHeartbeat;
    hide RenewLease;
    hide LeaseNext;
    hide AcceptResult;
    hide AcceptFailure;
    hide CreateNextGroup;
    hide Reconciled;
    hide Expired;
    hide SpecOk;
    hide Live;
    hide LeastFinish;
    match e
    case RecordEvent(policy) => PolicyDead(db, policy, 0, l, now);
    case ActivateEvent(id) => var p: Policy := Policy(Manifest(0, 0, 0, None, 0), 0); PolicyDead(db, p, id, l, now);
    case RecordAndActivateEvent(policy) =>
      PolicyDead(db, policy, 0, l, now);
      PolicyDead(RecordPolicy(db, policy).db, policy, policy.manifest.policyId, l, now);
    case ConfigureEvent(lag, preference) => ConfigureDead(db, lag, preference, l, now);
    case HeartbeatEvent(heartbeat, duration) => BeatDead(db, heartbeat, duration, l, now);
    case RenewEvent(renew, duration) => RenewDead(db, renew, duration, l, now);
    case LeaseEvent(request, duration, lease) => LeaseNextDead(db, request, retry, duration, lease, l, now);
    case ExpireEvent => ReconciledDead(db, l, now); ExpiredDead(Reconciled(db, now), retry, l, now);
    case ResultEvent(result) => EnvelopeDead(db, retry, result, FailureEnvelope(0, 0, 0, 0, 0, false, 0), l, now);
    case FailureEvent(failure) => EnvelopeDead(db, retry, ResultEnvelope(0, 0, 0, 0, 0, 0, Manifest(0, 0, 0, None, 0), 0), failure, l, now);
    case GroupEvent(kind, ids) => GroupDead(db, kind, ids, l, now);
    case RegisterEvent(_, _, _) =>
    case RequestEvent(_) =>
    case NoWorkEvent(_) =>
    case SourceEvent(_, _) =>
  }

  lemma {:induction false} DeadForever(states: seq<Tables>, events: seq<Timed>, retry: Retry, start: Time, i: nat, j: nat, l: Id)
    requires IsRun(states, events, retry) && StartsAt(states, events, start) && i <= j <= |events|
    requires Dead(states[i], l, TimeAt(events, start, i))
    ensures Dead(states[j], l, TimeAt(events, start, j))
    decreases j - i
  {
    hide Step;
    hide Invariant;
    if i < j {
      DeadForever(states, events, retry, start, i, j - 1, l);
      StepDead(states[j - 1], states[j], retry, events[j - 1].event, l, events[j - 1].now);
    }
  }

  /** An expired or superseded lease never changes the tables again, whatever is submitted in its name. */
  lemma Fenced(states: seq<Tables>, events: seq<Timed>, retry: Retry, start: Time, i: nat, j: nat, l: Id,
               e: ResultEnvelope, f: FailureEnvelope, now: Time)
    requires IsRun(states, events, retry) && StartsAt(states, events, start) && i <= j <= |events|
    requires Dead(states[i], l, TimeAt(events, start, i)) && TimeAt(events, start, j) <= now
    requires e.lease == l && f.lease == l
    ensures AcceptResult(states[j], e, now).db == states[j]
    ensures AcceptFailure(states[j], retry, f, now).db == states[j]
  {
    DeadForever(states, events, retry, start, i, j, l);
    hide IsRun;
    hide StartsAt;
    hide RowAfterResult;
    hide RowAfterFailure;
  }

  // ---------------------------------------------------------------- replays

  lemma AcceptedRecorded(db: Tables, e: ResultEnvelope, now: Time)
    requires AcceptResult(db, e, now).result == Success(Acknowledgement(false, true))
    ensures var to := AcceptResult(db, e, now).db;
            && e.assignment in to.assignments && to.assignments[e.assignment].accepted == Some(Acceptance(e.lease, e))
            && to.assignments[e.assignment].state.Succeeded?
  {
  }

  /** Once a result is accepted its replay changes nothing and is answered as a duplicate; any other is refused. */
  lemma ResultReplay(states: seq<Tables>, events: seq<Timed>, retry: Retry, start: Time, i: nat, j: nat,
                     e: ResultEnvelope, other: ResultEnvelope, now: Time)
    requires IsRun(states, events, retry) && StartsAt(states, events, start) && i < j <= |events|
    requires events[i].event == ResultEvent(e)
    requires AcceptResult(states[i], e, events[i].now).result == Success(Acknowledgement(false, true))
    requires other.assignment == e.assignment && other != e
    ensures AcceptResult(states[j], e, now) == Reply(states[j], Success(Acknowledgement(true, true)))
    ensures AcceptResult(states[j], other, now) == Reply(states[j], Failure(Conflict))
  {
    assert states[i + 1] == AcceptResult(states[i], e, events[i].now).db by {
      assert Step(states[i], states[i + 1], retry, events[i].event, events[i].now);
    }
    AcceptedRecorded(states[i], e, events[i].now);
    OutcomeFinal(states, events, retry, start, i + 1, j, e.assignment);
    hide IsRun;
    hide StartsAt;
  }

  lemma FinishedRefusesResult(db: Tables, e: ResultEnvelope, now: Time)
    requires e.assignment in db.assignments && RowOk(db.assignments[e.assignment]) && Terminal(db.assignments[e.assignment])
    ensures AcceptResult(db, e, now).db == db
    ensures AcceptResult(db, e, now).result.Success? ==> db.assignments[e.assignment].accepted == Some(Acceptance(e.lease, e))
  {
    hide CommitResult;
    hide ResultError;
  }

  lemma FinishedRefusesFailure(db: Tables, retry: Retry, f: FailureEnvelope, now: Time)
    requires f.assignment in db.assignments && Terminal(db.assignments[f.assignment])
    ensures AcceptFailure(db, retry, f, now).db == db
    ensures AcceptFailure(db, retry, f, now).result.Success? ==>
      f.lease in db.leases && db.leases[f.lease].failure.Some? && db.leases[f.lease].failure.value.digest == f
  {
    hide CommitFailure;
    assert ActiveError(db, f.assignment, f.attempt, f.lease, f.worker, f.session, now).Some?;
  }

  /** No envelope of any kind changes a finished assignment; only a replay is answered with success. */
  lemma FinishedRefuses(db: Tables, retry: Retry, e: ResultEnvelope, f: FailureEnvelope, now: Time)
    requires Invariant(db, now) && e.assignment == f.assignment && e.assignment in db.assignments
    requires Terminal(db.assignments[e.assignment])
    ensures AcceptResult(db, e, now).db == db && AcceptFailure(db, retry, f, now).db == db
    ensures AcceptResult(db, e, now).result.Success? ==> db.assignments[e.assignment].accepted == Some(Acceptance(e.lease, e))
    ensures AcceptFailure(db, retry, f, now).result.Success? ==>
      f.lease in db.leases && db.leases[f.lease].failure.Some? && db.leases[f.lease].failure.value.digest == f
  {
    hide AcceptResult;
    hide AcceptFailure;
    RowFacts(db, now, e.assignment);
    FinishedRefusesResult(db, e, now);
    FinishedRefusesFailure(db, retry, f, now);
  }

  lemma LaterLease(db: Tables, to: Tables, l: Id)
    requires Evolves(db, to) && l in db.leases
    ensures l in to.leases && LeaseEvolves(db.leases[l], to.leases[l])
  {
  }

  /** A recorded failure is acknowledged again with the same verdict; another envelope for its lease is refused. */
  lemma FailureReplay(states: seq<Tables>, events: seq<Timed>, retry: Retry, start: Time, i: nat, j: nat,
                      f: FailureEnvelope, other: FailureEnvelope, now: Time)
    requires IsRun(states, events, retry) && StartsAt(states, events, start) && i <= j <= |events|
    requires f.lease in states[i].leases && states[i].leases[f.lease].failure.Some?
    requires states[i].leases[f.lease].failure.value.digest == f
    requires other.lease == f.lease && other != f
    ensures AcceptFailure(states[j], retry, f, now)
            == Reply(states[j], Success(Acknowledgement(true, states[i].leases[f.lease].failure.value.terminal)))
    ensures AcceptFailure(states[j], retry, other, now) == Reply(states[j], Failure(Conflict))
  {
    hide Step;
    hide Invariant;
    hide Evolves;
    hide CommitFailure;
    hide ActiveError;
    RunEvolves(states, events, retry, start, i, j);
    RunKeeps(states, events, retry, start, i);
    LinkFacts(states[i], TimeAt(events, start, i), f.lease);
    LaterLease(states[i], states[j], f.lease);
    hide IsRun;
    hide StartsAt;
  }

  /** A request that was granted a lease is answered with that lease ever after. */
  lemma RequestReplay(states: seq<Tables>, events: seq<Timed>, retry: Retry, start: Time, i: nat, j: nat,
                      q: LeaseRequest, l: Id, duration: real, leaseId: Id, now: Time)
    requires IsRun(states, events, retry) && StartsAt(states, events, start) && i <= j <= |events| && duration > 0.0
    requires q.id in states[i].requests && states[i].requests[q.id] == Request(q.session, q, Granted(l))
    ensures ValidateLeaseRequest(states[j], q, now) == Reply(states[j], Success(Granted(l)))
    ensures LeaseNext(states[j], q, retry, duration, leaseId, now) == Reply(states[j], Success(Some(l)))
    ensures forall r :: r in states[j].requests && states[j].requests[r].disposition == Granted(l) ==> r == q.id
  {
    RunEvolves(states, events, retry, start, i, j);
    RunKeeps(states, events, retry, start, j);
    hide IsRun;
    hide StartsAt;
    assert RequestEvolves(states[i].requests[q.id], states[j].requests[q.id]);
    hide RowsEvolve;
    hide LeasesEvolve;
    hide CapacityOk;
    hide StaleOk;
    hide RowsOk;
    hide LinksOk;
    hide Live;
    hide Expired;
    hide Cancelled;
  }
}
