/** The repository: each method is one transaction on the committed tables, or fails and leaves them alone. */
module CoordinatorRepository {
  import opened Wrappers
  import opened CoordinatorTables
  import Ops = CoordinatorOperations
  import opened CoordinatorInvariants
  import opened CoordinatorExpiry
  import opened CoordinatorSteps
  import opened CoordinatorGrowth
  import opened CoordinatorProgress
  import opened CoordinatorRuns
  import opened CoordinatorLoops

  /** `db` holds what is committed; a method works on its own copy and assigns it to `db` when it commits. */
  class Repository {
    var db: Tables
    const retry: Ops.Retry

    ghost predicate Valid(now: Time)
      reads this
    {
      RetryOk(retry) && Invariant(db, now)
    }

    constructor (base: Policy, retryPolicy: Ops.Retry, now: Time)
      requires RetryOk(retryPolicy)
      ensures Valid(now) && db == Initialized(base) && retry == retryPolicy
    {
      db := Initialized(base);
      retry := retryPolicy;
      InitializedInvariant(base, now);
    }

    /** Waiting for the next transaction. */
    ghost method Wait(now: Time, later: Time)
      requires Valid(now) && now <= later
      ensures Valid(later)
    {
      ClockAdvances(db, now, later);
    }

    static method Reconcile(start: Tables, now: Time) returns (tx: Tables)
      requires RowsOk(start) && HeldOk(start)
      ensures tx == Ops.Reconciled(start, now)
    {
      hide Ops.Cancelled;
      hide RowsOk;
      hide HeldOk;
      tx := start;
      if tx.settings.maxLag.Some? { tx := CancelStale(tx, tx.settings.maxLag.value, now); }
    }

    method RecordPolicy(policy: Policy, now: Time) returns (result: Result<(), Error>)
      requires Valid(now)
      modifies this
      ensures Valid(now) && Reply(db, result) == Ops.RecordPolicy(old(db), policy)
      ensures result.Success? ==> policy.manifest.policyId in db.policies && db.policies[policy.manifest.policyId] == policy
      ensures forall p :: p in old(db).policies ==> p in db.policies && db.policies[p] == old(db).policies[p]
    {
      hide Invariant;
      RecordPolicyKeeps(db, policy, now);
      var id := policy.manifest.policyId;
      if policy.manifest.version == 0 { return Failure(BadValue); }
      if policy.manifest.lineage != db.lineage { return Failure(Conflict); }
      if id in db.policies && db.policies[id] == policy { return Success(()); }
      if id in db.policies || Ops.VersionTaken(db, policy.manifest.version) { return Failure(Conflict); }
      db := db.(policies := db.policies[id := policy]);
      return Success(());
    }

    method ActivatePolicy(id: Id, now: Time) returns (result: Result<(), Error>)
      requires Valid(now)
      modifies this
      ensures Valid(now) && Reply(db, result) == Ops.ActivatePolicy(old(db), id, now)
    {
      hide Ops.Reconciled;
      ActivatePolicyKeeps(db, id, now);
      assert RowsOk(db) && HeldOk(db);
      hide Invariant;
      if id !in db.policies { return Failure(InvalidState); }
      if db.policies[id].manifest.version < Version(db) { return Failure(InvalidState); }
      var tx := db.(active := id);
      assert RowsOk(tx) && HeldOk(tx) by { WorkFacts(db, tx); }
      hide RowsOk;
      hide HeldOk;
      tx := Reconcile(tx, now);
      db := tx;
      return Success(());
    }

    method RecordAndActivatePolicy(policy: Policy, now: Time) returns (result: Result<(), Error>)
      requires Valid(now)
      modifies this
      ensures Valid(now) && Reply(db, result) == Ops.RecordAndActivatePolicy(old(db), policy, now)
    {
      hide Invariant;
      hide Ops.RecordPolicy;
      hide Ops.ActivatePolicy;
      RecordAndActivateKeeps(db, policy, now);
      var saved := db;
      result := RecordPolicy(policy, now);
      if result.Success? {
        result := ActivatePolicy(policy.manifest.policyId, now);
        if result.Failure? { db := saved; }
      } else {
        FailedRecord(saved, policy);
      }
    }

    method ConfigureScheduler(lag: int, preference: real, now: Time) returns (result: Result<(), Error>)
      requires Valid(now)
      modifies this
      ensures Valid(now) && Reply(db, result) == Ops.ConfigureScheduler(old(db), lag, preference, now)
    {
      hide Ops.Reconciled;
      ConfigureSchedulerKeeps(db, lag, preference, now);
      assert RowsOk(db) && HeldOk(db);
      hide Invariant;
      if lag < 0 || preference < 0.0 { return Failure(BadValue); }
      var tx := db.(settings := db.settings.(maxLag := Some(lag), preference := Some(preference)));
      assert RowsOk(tx) && HeldOk(tx) by { WorkFacts(db, tx); }
      hide RowsOk;
      hide HeldOk;
      tx := Reconcile(tx, now);
      db := tx;
      return Success(());
    }

    method RegisterWorker(session: Id, worker: Id, capabilities: Capabilities, now: Time) returns (result: Result<bool, Error>)
      requires Valid(now)
      modifies this
      ensures Valid(now) && Reply(db, result) == Ops.RegisterWorker(old(db), session, worker, capabilities)
    {
      hide Invariant;
      RegisterWorkerKeeps(db, session, worker, capabilities, now);
      if capabilities.lineage != db.lineage { return Failure(Incompatible); }
      if session in db.sessions {
        if db.sessions[session].worker != worker || db.sessions[session].capabilities != capabilities { return Failure(Conflict); }
        return Success(false);
      }
      db := db.(sessions := db.sessions[session := Session(worker, capabilities, None, None)]);
      return Success(true);
    }

    method RecordHeartbeat(h: Ops.Heartbeat, duration: real, now: Time) returns (result: Result<Ops.HeartbeatAnswer, Error>)
      requires Valid(now)
      modifies this
      ensures Valid(now) && Reply(db, result) == Ops.RecordHeartbeat(old(db), h, duration, now)
    {
      RecordHeartbeatKeeps(db, h, duration, now);
      ReconciledKeeps(db, now);
      ReconcileKeepsSessions(db, now);
      assert RowsOk(db) && HeldOk(db) && LinksOk(Ops.Reconciled(db, now));
      hide Invariant;
      hide RowsOk;
      hide HeldOk;
      hide LinksOk;
      hide Evolves;
      hide Ops.Reconciled;
      hide Ops.Answer;
      hide Ops.LeaseAfterBeat;
      if duration <= 0.0 { return Failure(BadValue); }
      if !Ops.OwnSession(db, h.session, h.worker) { return Failure(Incompatible); }
      if Ops.NotAfter(h.sentAt, db.sessions[h.session].lastHeartbeat) { return Failure(Conflict); }
      if !Ops.KnownPolicies(db, h.loaded) { return Failure(Incompatible); }
      if Ops.ForeignLease(db, h) { return Failure(Conflict); }
      var tx := Reconcile(db, now);
      var leases, answer := BeatLeases(tx, h.leases, now, duration);
      db := tx.(leases := leases,
                sessions := tx.sessions[h.session := tx.sessions[h.session].(lastHeartbeat := Some(h.sentAt))]);
      return Success(answer);
    }

    method RenewLease(r: Ops.Renew, duration: real, now: Time) returns (result: Result<Ops.RenewAnswer, Error>)
      requires Valid(now)
      modifies this
      ensures Valid(now) && Reply(db, result) == Ops.RenewLease(old(db), r, duration, now)
      ensures result.Failure? ==> db == old(db)
    {
      RenewLeaseKeeps(db, r, duration, now);
      assert RowsOk(db) && HeldOk(db);
      hide Invariant;
      hide RowsOk;
      hide HeldOk;
      hide Evolves;
      hide Ops.Reconciled;
      if duration <= 0.0 { return Failure(BadValue); }
      var tx := Reconcile(db, now);
      if r.lease in tx.leases && r.expected.Some? && tx.leases[r.lease].assignment != r.expected.value { return Failure(Conflict); }
      if r.lease !in tx.leases || !tx.leases[r.lease].state.Active? || tx.leases[r.lease].expiresAt <= now {
        return Failure(InvalidState);
      }
      var l := tx.leases[r.lease];
      if l.worker != r.worker || l.session != r.session { return Failure(Conflict); }
      if !l.notice.NotCancelled? {
        if !r.acknowledge { return Failure(InvalidState); }
        var delivered := l.(notice := if l.notice.Requested? then Delivered(now) else l.notice);
        db := tx.(leases := tx.leases[r.lease := delivered]);
        return Success(Ops.Stop);
      }
      if r.sentAt.Some? && Ops.NotAfter(r.sentAt.value, l.lastRenewSentAt) { return Failure(Conflict); }
      if l.assignment !in tx.assignments { return Failure(NotFound); }
      var row := tx.assignments[l.assignment];
      if Passed(row.deadline, now) { return Failure(InvalidState); }
      var expiresAt := Ops.Capped(Ops.Later(l.expiresAt, now + duration), row.deadline);
      l := l.(expiresAt := expiresAt, lastRenewSentAt := if r.sentAt.Some? then r.sentAt else l.lastRenewSentAt);
      db := tx.(leases := tx.leases[r.lease := l]);
      return Success(Ops.Extended(expiresAt));
    }

    method ValidateLeaseRequest(q: LeaseRequest, now: Time) returns (result: Result<Disposition, Error>)
      requires Valid(now)
      modifies this
      ensures Valid(now) && Reply(db, result) == Ops.ValidateLeaseRequest(old(db), q, now)
    {
      hide Invariant;
      hide Live;
      ValidateLeaseRequestKeeps(db, q, now);
      if q.id in db.requests {
        if db.requests[q.id].digest != q { return Failure(Conflict); }
        return Success(db.requests[q.id].disposition);
      }
      if !Ops.OwnSession(db, q.session, q.worker) { return Failure(Incompatible); }
      if Ops.NotAfter(q.sentAt, db.sessions[q.session].lastRequest) { return Failure(Conflict); }
      if !Ops.KnownPolicies(db, q.loaded) { return Failure(Incompatible); }
      var active := |Live(db, q.session, now)|;
      if q.slots > db.sessions[q.session].capabilities.slots - active { return Failure(NoCapacity); }
      db := db.(requests := db.requests[q.id := Request(q.session, q, Undecided)],
                sessions := db.sessions[q.session := db.sessions[q.session].(lastRequest := Some(q.sentAt))]);
      return Success(Undecided);
    }

    method MarkNoWork(id: Id, now: Time) returns (result: Result<Disposition, Error>)
      requires Valid(now)
      modifies this
      ensures Valid(now) && Reply(db, result) == Ops.MarkNoWork(old(db), id)
      ensures result.Success? <==> id in old(db).requests
      ensures result.Success? ==> id in db.requests && db.requests[id].disposition == result.value && !result.value.Undecided?
    {
      hide Invariant;
      MarkNoWorkKeeps(db, id, now);
      if id !in db.requests { return Failure(InvalidState); }
      if db.requests[id].disposition.Undecided? {
        db := db.(requests := db.requests[id := db.requests[id].(disposition := NoWork)]);
      }
      return Success(db.requests[id].disposition);
    }

    method ExpireLeases(now: Time)
      requires Valid(now)
      modifies this
      ensures Valid(now) && db == Ops.ExpireLeases(old(db), retry, now)
    {
      ExpireLeasesKeeps(db, retry, now);
      ReconciledKeeps(db, now);
      assert RowsOk(db) && HeldOk(db);
      assert RowsOk(Ops.Reconciled(db, now)) && LinksOk(Ops.Reconciled(db, now)) && HeldOk(Ops.Reconciled(db, now));
      hide Invariant;
      hide RowsOk;
      hide LinksOk;
      hide HeldOk;
      hide Evolves;
      hide Ops.Reconciled;
      hide Ops.Expired;
      var tx := Reconcile(db, now);
      tx := ExpireAll(tx, retry, now);
      db := tx;
    }

    /** The candidate to lease among the schedulable ones. */
    static method Choose(tx: Tables, candidates: set<Id>, loaded: seq<Id>, preference: real, now: Time) returns (a: Id)
      requires candidates != {} && candidates <= tx.assignments.Keys
      ensures a == Ops.Choice(tx, candidates, loaded, preference, now)
    {
      a := SelectFirst(tx, candidates);
      if now - tx.assignments[a].availableAt < preference {
        var preferred := Ops.Loaded(tx, candidates, loaded);
        if preferred != {} { a := SelectFirst(tx, preferred); }
      }
    }

    method LeaseNextCompatible(q: LeaseRequest, duration: real, leaseId: Id, now: Time) returns (result: Result<Option<Id>, Error>)
      requires Valid(now)
      modifies this
      ensures Valid(now) && Reply(db, result) == Ops.LeaseNext(old(db), q, retry, duration, leaseId, now)
    {
      hide Invariant;
      LeaseNextKeeps(db, q, retry, duration, leaseId, now);
      ExpiredFacts(db, retry, now);
      hide RowsOk;
      hide LinksOk;
      hide HeldOk;
      hide Evolves;
      hide Ops.Expired;
      hide Ops.Cancelled;
      hide Ops.Choice;
      hide Ops.Candidates;
      hide Ops.Issue;
      hide Live;
      if duration <= 0.0 { return Failure(BadValue); }
      if q.id !in db.requests { return Failure(InvalidState); }
      match db.requests[q.id].disposition {
        case Granted(lease) => return Success(Some(lease));
        case NoWork => return Success(None);
        case Undecided =>
      }
      ReleasedSessions(db, retry, now);
      var tx := ExpireAll(db, retry, now);
      if !Ops.OwnSession(tx, q.session, q.worker) || !Ops.KnownPolicies(tx, q.loaded) { return Failure(Incompatible); }
      if tx.settings.maxLag.None? || tx.settings.preference.None? { return Failure(InvalidState); }
      tx := CancelStale(tx, tx.settings.maxLag.value, now);
      var active := |Live(tx, q.session, now)|;
      if tx.sessions[q.session].capabilities.slots - active < 1 { db := tx; return Success(None); }
      var candidates := Ops.Candidates(tx, now);
      if candidates == {} { db := tx; return Success(None); }
      CandidatesListed(tx, now);
      var a := Choose(tx, candidates, q.loaded, tx.settings.preference.value, now);
      if leaseId in tx.leases { return Failure(Integrity); }
      tx := InsertLease(tx, q, a, leaseId, duration, now);
      db := tx;
      return Success(Some(leaseId));
    }

    /** The three writes that lease assignment `a`. */
    static method InsertLease(start: Tables, q: LeaseRequest, a: Id, leaseId: Id, duration: real, now: Time) returns (tx: Tables)
      requires a in start.assignments && q.id in start.requests
      ensures tx == Ops.Issue(start, q, a, leaseId, duration, now)
    {
      var row := start.assignments[a];
      var attempt := row.attemptCount + 1;
      var expiresAt := Ops.Capped(now + duration, row.deadline);
      tx := start.(leases := start.leases[leaseId := Lease(a, attempt, q.worker, q.session, now, expiresAt, Active, None, NotCancelled, None)]);
      tx := tx.(assignments := tx.assignments[a := row.(state := Leased, attemptCount := attempt, current := Some(leaseId))]);
      tx := tx.(requests := tx.requests[q.id := tx.requests[q.id].(disposition := Granted(leaseId))]);
    }

    method AcceptResult(e: ResultEnvelope, now: Time) returns (result: Result<Ops.Acknowledgement, Error>)
      requires Valid(now)
      modifies this
      ensures Valid(now) && Reply(db, result) == Ops.AcceptResult(old(db), e, now)
      ensures result.Success? ==> e.assignment in db.assignments && db.assignments[e.assignment].accepted == Some(Acceptance(e.lease, e))
      ensures result.Success? && !result.value.duplicate ==>
        e.lease in old(db).leases && old(db).leases[e.lease].state.Active? && now < old(db).leases[e.lease].expiresAt
      ensures result.Success? && !result.value.duplicate ==>
        forall a :: a in old(db).assignments && a != e.assignment ==> a in db.assignments && db.assignments[a] == old(db).assignments[a]
      ensures !(result.Success? && !result.value.duplicate) ==> db == old(db)
    {
      hide Invariant;
      hide Ops.ResultError;
      hide Ops.RowAfterResult;
      AcceptResultKeeps(db, e, now);
      AcceptedFacts(db, e, now);
      var existing := Ops.ExistingTerminal(db, e.assignment, e.lease, e);
      if existing.Failure? { return Failure(existing.error); }
      if existing.value.Some? { return Success(existing.value.value); }
      var error := Ops.ResultError(db, e, now);
      if error.Some? { return Failure(error.value); }
      NamesExisting(db, e, now);
      var row := Ops.RowAfterResult(db.assignments[e.assignment], e, now);
      var tx := db.(leases := db.leases[e.lease := db.leases[e.lease].(state := LeaseSucceeded)]);
      tx := tx.(assignments := tx.assignments[e.assignment := row]);
      db := Ops.RecomputeGroup(tx, db.assignments[e.assignment].group);
      return Success(Ops.Acknowledgement(false, true));
    }

    method AcceptFailure(e: FailureEnvelope, now: Time) returns (result: Result<Ops.Acknowledgement, Error>)
      requires Valid(now)
      modifies this
      ensures Valid(now) && Reply(db, result) == Ops.AcceptFailure(old(db), retry, e, now)
      ensures result.Success? ==>
        e.lease in db.leases && db.leases[e.lease].failure == Some(FailureRecord(e, result.value.terminal))
      ensures result.Success? && !result.value.duplicate ==>
        e.lease in old(db).leases && old(db).leases[e.lease].state.Active? && now < old(db).leases[e.lease].expiresAt
      ensures !(result.Success? && !result.value.duplicate) ==> db == old(db)
    {
      hide Invariant;
      hide Ops.RowAfterFailure;
      AcceptFailureKeeps(db, retry, e, now);
      var existing := Ops.ExistingFailure(db, e);
      if existing.Failure? { return Failure(existing.error); }
      if existing.value.Some? { return Success(existing.value.value); }
      var error := Ops.ActiveError(db, e.assignment, e.attempt, e.lease, e.worker, e.session, now);
      if error.Some? { return Failure(error.value); }
      var lease := db.leases[e.lease];
      var row := Ops.RowAfterFailure(db.assignments[e.assignment], !lease.notice.NotCancelled?, retry, e, now);
      var tx := db.(assignments := db.assignments[e.assignment := row]);
      tx := tx.(leases := tx.leases[e.lease := lease.(state := LeaseFailed, failure := Some(FailureRecord(e, Terminal(row))))]);
      db := Ops.RecomputeGroup(tx, row.group);
      return Success(Ops.Acknowledgement(false, Terminal(row)));
    }

    method RegisterSchedulerSource(id: Id, spec: SourceSpec, now: Time) returns (result: Result<(), Error>)
      requires Valid(now) && SpecOk(spec)
      modifies this
      ensures Valid(now) && Reply(db, result) == Ops.RegisterSource(old(db), id, spec)
    {
      hide Invariant;
      hide SpecOk;
      RegisterSourceKeeps(db, id, spec, now);
      if id in db.sources {
        if db.sources[id].spec == spec { return Success(()); }
        return Failure(Conflict);
      }
      var least := 0.0;
      var enabled := Ops.Enabled(db.sources, None);
      if enabled != {} {
        var s := SelectNext(db.sources, enabled);
        least := db.sources[s].virtualFinish;
      }
      db := db.(sources := db.sources[id := Source(spec, least, 0)]);
      return Success(());
    }

    /** The branch for a creation key that already exists is dead: `KeyFree`. */
    method CreateNextGroup(kind: Option<Kind>, ids: nat -> Id, now: Time) returns (result: Result<Option<Id>, Error>)
      requires Valid(now)
      modifies this
      ensures forall s :: s in old(db).sources ==> SpecOk(old(db).sources[s].spec)
      ensures Valid(now) && Reply(db, result) == Ops.CreateNextGroup(old(db), kind, ids, now)
    {
      hide Invariant;
      hide Ops.NewRows;
      hide Ops.FreshIds;
      SourceFacts(db, now);
      CreateNextGroupKeeps(db, kind, ids, now);
      var among := Ops.Enabled(db.sources, kind);
      if among == {} { return Success(None); }
      var s := SelectNext(db.sources, among);
      KeysFree(db, s, now);
      var source := db.sources[s];
      var spec := source.spec;
      assert SpecOk(spec);
      var ok := IdsAreFresh(db, ids, spec.groupSize);
      if !ok { return Failure(Integrity); }
      var tx := db.(settings := db.settings.(nextSequence := db.settings.nextSequence + 1));
      var group := Group(db.active, spec.kind, spec.groupSize, spec.tasks[source.cursor % |spec.tasks|], now,
                         Occurrence(s, source.cursor), db.settings.nextSequence, Collecting);
      tx := tx.(groups := tx.groups[ids(0) := group]);
      var rows := InsertRows(spec, db.active, ids(0), ids, now);
      tx := tx.(assignments := tx.assignments + rows);
      db := tx.(sources := tx.sources[s := source.(cursor := source.cursor + 1,
                                                  virtualFinish := source.virtualFinish + Ops.Cost(spec))]);
      return Success(Some(ids(0)));
    }

    method LeaseOrCreateNextCompatible(q: LeaseRequest, duration: real, made: Identities, clock: nat -> Time)
        returns (result: Result<Option<Id>, Error>)
      requires Valid(clock(0)) && clock(0) <= clock(1) <= clock(2) <= clock(3)
      modifies this
      ensures forall s :: s in old(db).sources ==> SpecOk(old(db).sources[s].spec)
      ensures RetryOk(retry) && exists i: nat :: i <= 3 && Invariant(db, clock(i))
      ensures Reply(db, result) == LeaseOrCreate(old(db), q, retry, duration, made, clock)
    {
      hide Invariant;
      hide Ops.LeaseNext;
      hide Ops.CreateNextGroup;
      hide Ops.CanGenerate;
      SourceFacts(db, clock(0));
      result := LeaseNextCompatible(q, duration, made.first, clock(0));
      if result.Failure? || result.value.Some? { return; }
      if !Ops.CanGenerate(db, q, clock(1)) { return; }
      Wait(clock(0), clock(2));
      result := CreateNextGroup(None, made.ids, clock(2));
      if result.Failure? || result.value.None? { return; }
      Wait(clock(2), clock(3));
      result := LeaseNextCompatible(q, duration, made.second, clock(3));
    }
  }

  lemma KeysFree(db: Tables, s: Id, now: Time)
    requires Invariant(db, now) && s in db.sources
    ensures !Ops.KeyTaken(db, Occurrence(s, db.sources[s].cursor))
  {
    assert KeysOk(db);
    hide Invariant;
    KeyFree(db, s);
  }

  lemma CandidatesListed(tx: Tables, now: Time)
    ensures Ops.Candidates(tx, now) <= tx.assignments.Keys
  {
  }

  lemma ExpiredFacts(db: Tables, retry: Ops.Retry, now: Time)
    requires Invariant(db, now) && RetryOk(retry)
    ensures RowsOk(db) && LinksOk(db) && HeldOk(db)
    ensures RowsOk(Ops.Expired(db, retry, now)) && HeldOk(Ops.Expired(db, retry, now))
  {
    ExpiredKeeps(db, retry, now);
  }

  lemma WorkFacts(db: Tables, tx: Tables)
    requires RowsOk(db) && HeldOk(db) && tx.assignments == db.assignments && tx.leases == db.leases
    ensures RowsOk(tx) && HeldOk(tx)
  {
    hide RowOk;
    forall a, l: Option<Id> | LeaseOf(db, l, a) ensures LeaseOf(tx, l, a) {
    }
  }

  lemma FailedRecord(db: Tables, policy: Policy)
    requires Ops.RecordPolicy(db, policy).result.Failure?
    ensures Ops.RecordPolicy(db, policy).db == db
  {
  }

  lemma NamesExisting(db: Tables, e: ResultEnvelope, now: Time)
    requires Ops.ResultError(db, e, now).None?
    ensures e.assignment in db.assignments && e.lease in db.leases
  {
  }

  lemma ReleasedSessions(db: Tables, retry: Ops.Retry, now: Time)
    ensures var d := Ops.Expired(db, retry, now);
            && d.sessions == db.sessions && d.settings == db.settings && d.policies == db.policies && d.requests == db.requests
    ensures forall lag ::
              var d := Ops.Cancelled(Ops.Expired(db, retry, now), lag, now);
              d.sessions == db.sessions && d.settings == db.settings && d.requests == db.requests
  {
  }

  /** A result is accepted under an active lease whose time has not run out, and touches no other assignment. */
  lemma AcceptedFacts(db: Tables, e: ResultEnvelope, now: Time)
    ensures var to, result := Ops.AcceptResult(db, e, now).db, Ops.AcceptResult(db, e, now).result;
            && (result.Success? ==> e.assignment in to.assignments && to.assignments[e.assignment].accepted == Some(Acceptance(e.lease, e)))
            && (result.Success? && !result.value.duplicate ==>
                  && e.lease in db.leases && db.leases[e.lease].state.Active? && now < db.leases[e.lease].expiresAt
                  && forall a :: a in db.assignments && a != e.assignment ==> a in to.assignments && to.assignments[a] == db.assignments[a])
            && (!(result.Success? && !result.value.duplicate) ==> to == db)
  {
  }
}
