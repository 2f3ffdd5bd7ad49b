/** Which error each refused transaction answers with, in the columns of the tables alone. */
module Refusals {
  import opened Wrappers
  import opened CoordinatorTables
  import opened CoordinatorOperations
  import opened CoordinatorInvariants
  import opened CoordinatorEffects
  import opened LeaseRenewals
  import opened EnvelopeDecisions
  import opened CatalogDecisions
  import opened LeaseChoices

  predicate Owns(db: Tables, session: Id, worker: Id) {
    session in db.sessions && db.sessions[session].worker == worker
  }

  predicate AllRecorded(db: Tables, policies: seq<Id>) {
    forall p :: p in policies ==> p in db.policies
  }

  /** A heartbeat: a bad duration, then a foreign session, a message out of order, an unknown policy, a foreign lease. */
  lemma HeartbeatRefused(db: Tables, h: Heartbeat, duration: real, now: Time)
    requires RecordHeartbeat(db, h, duration, now).result.Failure?
    ensures RecordHeartbeat(db, h, duration, now).result.error
            == if duration <= 0.0 then BadValue
               else if !Owns(db, h.session, h.worker) then Incompatible
               else if db.sessions[h.session].lastHeartbeat.Some? && h.sentAt <= db.sessions[h.session].lastHeartbeat.value then Conflict
               else if !AllRecorded(db, h.loaded) then Incompatible
               else Conflict
  {
    hide Reconciled;
    hide Answer;
    hide LeaseAfterBeat;
  }

  /** A new request: a foreign session, then a message out of order, an unknown policy, too few free slots. */
  lemma RequestRefused(db: Tables, q: LeaseRequest, now: Time)
    requires ValidateLeaseRequest(db, q, now).result.Failure? && q.id !in db.requests
    ensures ValidateLeaseRequest(db, q, now).result.error
            == if !Owns(db, q.session, q.worker) then Incompatible
               else if db.sessions[q.session].lastRequest.Some? && q.sentAt <= db.sessions[q.session].lastRequest.value then Conflict
               else if !AllRecorded(db, q.loaded) then Incompatible
               else NoCapacity
  {
    hide Live;
  }

  /** Leasing: a bad duration, then an unknown request, a foreign session or policy, missing settings. */
  lemma LeaseRefused(db: Tables, q: LeaseRequest, retry: Retry, duration: real, leaseId: Id, now: Time)
    requires LeaseNext(db, q, retry, duration, leaseId, now).result.Failure? && leaseId !in db.leases
    ensures LeaseNext(db, q, retry, duration, leaseId, now).result.error
            == if duration <= 0.0 then BadValue
               else if q.id !in db.requests then InvalidState
               else if !Owns(db, q.session, q.worker) || !AllRecorded(db, q.loaded) then Incompatible
               else InvalidState
  {
    hide Live;
    hide Choice;
    hide Candidates;
    hide LeaseAfterExpiry;
    hide LeaseAfterCancel;
    hide AssignmentAfterExpiry;
    hide AssignmentAfterCancel;
  }

  /** A renewal: a bad duration, another assignment named, a lease that has ended, a foreign one, a cancelled one, a message out of order. */
  lemma RenewalRefused(db: Tables, r: Renew, duration: real, now: Time)
    requires Invariant(db, now) && RenewLease(db, r, duration, now).result.Failure?
    ensures RenewLease(db, r, duration, now).result.error
            == if duration <= 0.0 then BadValue
               else if r.lease in db.leases && r.expected.Some? && r.expected.value != db.leases[r.lease].assignment then Conflict
               else if r.lease !in db.leases || db.leases[r.lease].state != Active || db.leases[r.lease].expiresAt <= now then InvalidState
               else if db.leases[r.lease].worker != r.worker || db.leases[r.lease].session != r.session then Conflict
               else if Cancels(db, r.lease) then InvalidState
               else if !Newer(db, r) then Conflict
               else InvalidState
  {
    Facts(db, now);
    hide Invariant;
    hide RowsOk;
    hide HeldOk;
    hide RenewLease;
    ReconciledStates(db, now);
    if r.lease in db.leases { ReconciledLease(db, now, r.lease); }
    hide LinksOk;
    hide Reconciled;
    hide Cancels;
    ErrorOf(db, r, duration, now);
  }

  lemma ErrorOf(db: Tables, r: Renew, duration: real, now: Time)
    requires RenewLease(db, r, duration, now).result.Failure? && Reconciled(db, now).leases.Keys == db.leases.Keys
    requires r.lease in db.leases ==> Notified(db, Reconciled(db, now), r.lease)
    ensures RenewLease(db, r, duration, now).result.error
            == if duration <= 0.0 then BadValue
               else if r.lease in db.leases && r.expected.Some? && r.expected.value != db.leases[r.lease].assignment then Conflict
               else if r.lease !in db.leases || db.leases[r.lease].state != Active || db.leases[r.lease].expiresAt <= now then InvalidState
               else if db.leases[r.lease].worker != r.worker || db.leases[r.lease].session != r.session then Conflict
               else if Cancels(db, r.lease) then InvalidState
               else if !Newer(db, r) then Conflict
               else InvalidState
  {
    hide Reconciled;
    hide Outdated;
    hide ExtendedTo;
  }

  /** The envelope names the current active lease of its assignment, in time or not. */
  predicate NamesLease(db: Tables, a: Id, attempt: nat, l: Id, worker: Id, session: Id) {
    && a in db.assignments && l in db.leases && db.leases[l].state == Active && db.leases[l].assignment == a
    && db.assignments[a].state == Leased && db.assignments[a].current == Some(l)
    && db.leases[l].attempt == attempt && db.leases[l].worker == worker && db.leases[l].session == session
  }

  /** A result: an unknown assignment, then one that has ended or another lease, a lease out of time, another policy. */
  lemma ResultRefused(db: Tables, e: ResultEnvelope, now: Time)
    requires Invariant(db, now) && AcceptResult(db, e, now).result.Failure?
    ensures AcceptResult(db, e, now).result.error
            == if e.assignment !in db.assignments then NotFound
               else if db.assignments[e.assignment].outcome.Some?
                       || !NamesLease(db, e.assignment, e.attempt, e.lease, e.worker, e.session) then Conflict
               else if OutOfTime(db.leases[e.lease], db.assignments[e.assignment], now) then InvalidState
               else Conflict
  {
    hide Invariant;
    hide AcceptResult;
    hide NamesLease;
    hide LinkOk;
    hide OutOfTime;
    RowFactsOf(db, now, e.assignment);
    ResultErrorOf(db, e, now);
  }

  lemma ResultErrorOf(db: Tables, e: ResultEnvelope, now: Time)
    requires AcceptResult(db, e, now).result.Failure?
    requires e.assignment in db.assignments && db.assignments[e.assignment].accepted.Some? ==> db.assignments[e.assignment].outcome.Some?
    ensures AcceptResult(db, e, now).result.error
            == if e.assignment !in db.assignments then NotFound
               else if db.assignments[e.assignment].outcome.Some?
                       || !NamesLease(db, e.assignment, e.attempt, e.lease, e.worker, e.session) then Conflict
               else if OutOfTime(db.leases[e.lease], db.assignments[e.assignment], now) then InvalidState
               else Conflict
  {
    hide CommitResult;
  }

  /** A failure: another one on record, then an unknown assignment, another lease, a lease out of time. */
  lemma FailureRefused(db: Tables, retry: Retry, e: FailureEnvelope, now: Time)
    requires AcceptFailure(db, retry, e, now).result.Failure?
    ensures AcceptFailure(db, retry, e, now).result.error
            == if e.lease in db.leases && db.leases[e.lease].failure.Some? then Conflict
               else if e.assignment !in db.assignments then NotFound
               else if !NamesLease(db, e.assignment, e.attempt, e.lease, e.worker, e.session) then Conflict
               else InvalidState
  {
    hide CommitFailure;
  }
}
