/** Exactly which leases a heartbeat or a renewal extends, and by how much, in the columns of the tables alone. */
module LeaseRenewals {
  import opened Wrappers
  import opened CoordinatorTables
  import opened CoordinatorOperations
  import opened CoordinatorInvariants
  import opened CoordinatorExpiry
  import opened CoordinatorSteps
  import opened CoordinatorEffects

  /** The new expiry is `now + duration` or the deadline that comes before it, but never less than the old one. */
  predicate Extends(before: Time, after: Time, now: Time, duration: real, deadline: Option<Time>) {
    && before <= after
    && (now + duration <= after || deadline == Some(after))
    && (after <= before || after <= now + duration)
    && (deadline.Some? ==> after <= deadline.value)
  }

  /** The lease is cancelled, or will be by the reconciliation the transaction starts with. */
  predicate Cancels(db: Tables, l: Id)
    requires l in db.leases
  {
    || db.leases[l].notice != NotCancelled
    || (db.settings.maxLag.Some? && db.leases[l].state == Active && Outdated(db, db.settings.maxLag.value, db.leases[l].assignment))
  }

  /** An uncancelled active lease with time left. */
  predicate Lives(db: Tables, l: Id, now: Time)
    requires l in db.leases && db.leases[l].assignment in db.assignments
  {
    !Cancels(db, l) && db.leases[l].state == Active && !OutOfTime(db.leases[l], db.assignments[db.leases[l].assignment], now)
  }

  lemma Facts(db: Tables, now: Time)
    requires Invariant(db, now)
    ensures RowsOk(db) && LinksOk(db) && HeldOk(db) && db.active in db.policies
  {
    hide SpecOk;
    hide RowsOk;
    hide LinksOk;
    hide HeldOk;
  }

  /** What the reconciliation makes of a lease and of its assignment's deadline and state. */
  lemma ReconciledLease(db: Tables, now: Time, l: Id)
    requires RowsOk(db) && LinksOk(db) && db.active in db.policies && l in db.leases
    ensures var d := Reconciled(db, now);
            && d.leases.Keys == db.leases.Keys && db.leases[l].assignment in d.assignments
            && d.leases[l] == (if Cancels(db, l) && db.leases[l].notice == NotCancelled then db.leases[l].(notice := Requested) else db.leases[l])
            && d.assignments[db.leases[l].assignment].deadline == db.assignments[db.leases[l].assignment].deadline
            && (db.leases[l].state == Active ==> d.assignments[db.leases[l].assignment].state == Leased)
  {
    var a := db.leases[l].assignment;
    assert LinkOk(l, db.leases[l], db.assignments[a]);
    assert RowOk(db.assignments[a]);
    if db.settings.maxLag.Some? {
      CancellationOfLease(db, db.settings.maxLag.value, now, l);
      CancellationOfRow(db, db.settings.maxLag.value, now, a);
    }
    hide RowsOk;
    hide LinksOk;
    hide Cancelled;
    hide Outdated;
  }

  // ---------------------------------------------------------------- heartbeats

  /** The lease after a heartbeat that names `ids`: extended, notified, or as it was. */
  predicate Beaten(db: Tables, ids: seq<Id>, l: Id, to: Lease, now: Time, duration: real)
    requires l in db.leases && db.leases[l].assignment in db.assignments
  {
    var lease := db.leases[l];
    && to == lease.(expiresAt := to.expiresAt, notice := to.notice)
    && (if l in ids && Lives(db, l, now)
        then Extends(lease.expiresAt, to.expiresAt, now, duration, db.assignments[lease.assignment].deadline)
        else to.expiresAt == lease.expiresAt)
    && to.notice == (if !Cancels(db, l) then NotCancelled
                     else if lease.notice.Delivered? then lease.notice
                     else if l in ids then Delivered(now) else Requested)
  }

  lemma BeatenLease(db: Tables, ids: seq<Id>, l: Id, now: Time, duration: real)
    requires RowsOk(db) && LinksOk(db) && db.active in db.policies && l in db.leases
    ensures var d := Reconciled(db, now); l in d.leases && Beaten(db, ids, l, LeaseAfterBeat(d, ids, now, duration, l), now, duration)
  {
    var a := db.leases[l].assignment;
    assert LinkOk(l, db.leases[l], db.assignments[a]);
    ReconciledLease(db, now, l);
    hide Reconciled;
    hide RowsOk;
    hide LinksOk;
    hide Outdated;
  }

  /** A heartbeat is accepted exactly from its own session, newer than the last, about known policies and its own leases. */
  lemma HeartbeatAccepted(db: Tables, h: Heartbeat, duration: real, now: Time)
    ensures RecordHeartbeat(db, h, duration, now).result.Success? <==>
      && duration > 0.0 && h.session in db.sessions && db.sessions[h.session].worker == h.worker
      && (db.sessions[h.session].lastHeartbeat.Some? ==> db.sessions[h.session].lastHeartbeat.value < h.sentAt)
      && (forall p :: p in h.loaded ==> p in db.policies)
      && (forall l :: l in h.leases && l in db.leases ==> db.leases[l].worker == h.worker && db.leases[l].session == h.session)
    ensures RecordHeartbeat(db, h, duration, now).result.Failure? ==> RecordHeartbeat(db, h, duration, now).db == db
  {
    hide Reconciled;
    hide Answer;
    hide LeaseAfterBeat;
  }

  /** A renewal in the answer names a named living lease, its assignment and the expiry that was committed. */
  predicate RenewalTrue(db: Tables, to: Tables, ids: seq<Id>, r: Renewal, now: Time) {
    && r.lease in ids && r.lease in db.leases && db.leases[r.lease].assignment in db.assignments && Lives(db, r.lease, now)
    && r.assignment == db.leases[r.lease].assignment && r.lease in to.leases && r.expiresAt == to.leases[r.lease].expiresAt
  }

  ghost predicate AllBeaten(db: Tables, to: Tables, ids: seq<Id>, now: Time, duration: real) {
    && to.leases.Keys == db.leases.Keys
    && forall l :: l in db.leases ==> db.leases[l].assignment in db.assignments && Beaten(db, ids, l, to.leases[l], now, duration)
  }

  /** Every named living lease has a renewal, every other named one a stop, and there is one answer per name. */
  ghost predicate AllAnswered(db: Tables, to: Tables, ids: seq<Id>, answer: HeartbeatAnswer, now: Time) {
    && (forall i :: 0 <= i < |answer.renewals| ==> RenewalTrue(db, to, ids, answer.renewals[i], now))
    && (forall l :: l in ids ==>
          if l in db.leases && db.leases[l].assignment in db.assignments && Lives(db, l, now)
          then RenewalFor(answer.renewals, l) else l in answer.stops)
    && |answer.renewals| + |answer.stops| == |ids|
  }

  lemma HeartbeatLeases(db: Tables, h: Heartbeat, duration: real, now: Time)
    requires RowsOk(db) && LinksOk(db) && db.active in db.policies && RecordHeartbeat(db, h, duration, now).result.Success?
    ensures AllBeaten(db, RecordHeartbeat(db, h, duration, now).db, h.leases, now, duration)
  {
    HeartbeatShape(db, h, duration, now);
    hide RecordHeartbeat;
    hide RowsOk;
    hide Reconciled;
    hide Beaten;
    hide LeaseAfterBeat;
    hide LinkOk;
    forall l | l in db.leases
      ensures db.leases[l].assignment in db.assignments
      ensures Beaten(db, h.leases, l, RecordHeartbeat(db, h, duration, now).db.leases[l], now, duration)
    {
      BeatenLease(db, h.leases, l, now, duration);
    }
  }

  lemma HeartbeatAnswers(db: Tables, h: Heartbeat, duration: real, now: Time)
    requires RowsOk(db) && LinksOk(db) && db.active in db.policies && RecordHeartbeat(db, h, duration, now).result.Success?
    ensures AllAnswered(db, RecordHeartbeat(db, h, duration, now).db, h.leases, RecordHeartbeat(db, h, duration, now).result.value, now)
  {
    HeartbeatShape(db, h, duration, now);
    var d := Reconciled(db, now);
    var to, answer := RecordHeartbeat(db, h, duration, now).db, RecordHeartbeat(db, h, duration, now).result.value;
    AnswerExact(d, h.leases, now, duration, h.leases);
    hide RecordHeartbeat;
    hide RowsOk;
    hide Answer;
    hide Reconciled;
    hide Lives;
    hide LeaseAfterBeat;
    hide LinkOk;
    hide RenewalFor;
    forall l | l in db.leases
      ensures db.leases[l].assignment in db.assignments && (Renewed(d, l, now) <==> Lives(db, l, now))
      ensures d.leases[l].assignment == db.leases[l].assignment
    {
      RenewedLives(db, now, l);
      ReconciledTimes(db, now, l);
    }
    hide LinksOk;
    forall l | Renewed(d, l, now) ensures l in d.leases {
      RenewedKnown(d, l, now);
    }
    hide Renewed;
    assert forall i :: 0 <= i < |answer.renewals| ==> Renewed(d, answer.renewals[i].lease, now);
  }

  /** After an accepted heartbeat exactly the named living leases are extended, and the answer says so. */
  lemma HeartbeatExtends(db: Tables, h: Heartbeat, duration: real, now: Time)
    requires Invariant(db, now) && RecordHeartbeat(db, h, duration, now).result.Success?
    ensures var to, answer := RecordHeartbeat(db, h, duration, now).db, RecordHeartbeat(db, h, duration, now).result.value;
            && AllBeaten(db, to, h.leases, now, duration) && AllAnswered(db, to, h.leases, answer, now)
            && h.session in to.sessions && to.sessions[h.session].lastHeartbeat == Some(h.sentAt)
  {
    Facts(db, now);
    hide Invariant;
    hide RowsOk;
    hide LinksOk;
    hide HeldOk;
    hide AllBeaten;
    hide AllAnswered;
    HeartbeatShape(db, h, duration, now);
    HeartbeatLeases(db, h, duration, now);
    HeartbeatAnswers(db, h, duration, now);
    hide RecordHeartbeat;
  }

  lemma RenewedKnown(d: Tables, l: Id, now: Time)
    requires Renewed(d, l, now)
    ensures l in d.leases
  {
  }

  lemma HeartbeatShape(db: Tables, h: Heartbeat, duration: real, now: Time)
    requires RecordHeartbeat(db, h, duration, now).result.Success?
    ensures var d := Reconciled(db, now);
            var to, answer := RecordHeartbeat(db, h, duration, now).db, RecordHeartbeat(db, h, duration, now).result.value;
            && d.leases.Keys == db.leases.Keys && to.leases.Keys == db.leases.Keys && answer == Answer(d, h.leases, now, duration)
            && (forall l :: l in d.leases ==> to.leases[l] == LeaseAfterBeat(d, h.leases, now, duration, l))
            && h.session in to.sessions && to.sessions[h.session].lastHeartbeat == Some(h.sentAt)
  {
    ReconciledStates(db, now);
    hide Reconciled;
    hide Answer;
    hide LeaseAfterBeat;
  }

  lemma RenewedLives(db: Tables, now: Time, l: Id)
    requires RowsOk(db) && LinksOk(db) && db.active in db.policies && l in db.leases
    ensures Renewed(Reconciled(db, now), l, now) <==> Lives(db, l, now)
  {
    ReconciledLease(db, now, l);
    hide Reconciled;
    hide RowsOk;
    hide Outdated;
  }

  // ---------------------------------------------------------------- renewals

  /** The renewal is by the owner of an active lease with time left, named under its assignment if at all. */
  predicate OwnsActive(db: Tables, r: Renew, duration: real, now: Time) {
    && duration > 0.0 && r.lease in db.leases && (r.expected.Some? ==> r.expected.value == db.leases[r.lease].assignment)
    && db.leases[r.lease].state == Active && now < db.leases[r.lease].expiresAt
    && db.leases[r.lease].worker == r.worker && db.leases[r.lease].session == r.session
  }

  predicate Newer(db: Tables, r: Renew)
    requires r.lease in db.leases
  {
    r.sentAt.Some? && db.leases[r.lease].lastRenewSentAt.Some? ==> db.leases[r.lease].lastRenewSentAt.value < r.sentAt.value
  }

  /** What the reconciliation made of the lease to be renewed. */
  predicate Notified(db: Tables, d: Tables, l: Id)
    requires l in db.leases
  {
    && l in d.leases && db.leases[l].assignment in db.assignments && db.leases[l].assignment in d.assignments
    && d.leases[l] == (if Cancels(db, l) && db.leases[l].notice == NotCancelled then db.leases[l].(notice := Requested) else db.leases[l])
    && d.assignments[db.leases[l].assignment].deadline == db.assignments[db.leases[l].assignment].deadline
  }

  /** Exactly when the renewal extends the lease, and when it is told to stop; else nothing changes. */
  predicate RenewalDecided(db: Tables, r: Renew, duration: real, now: Time, to: Tables, result: Result<RenewAnswer, Error>) {
    && (result.Success? && result.value.Extended? <==>
          && OwnsActive(db, r, duration, now) && !Cancels(db, r.lease) && Newer(db, r)
          && db.leases[r.lease].assignment in db.assignments
          && !OutOfTime(db.leases[r.lease], db.assignments[db.leases[r.lease].assignment], now))
    && (result == Success(Stop) <==> OwnsActive(db, r, duration, now) && Cancels(db, r.lease) && r.acknowledge)
    && (result.Failure? ==> to == db)
  }

  /** What a successful renewal commits is what it answers. */
  predicate RenewalCommitted(db: Tables, r: Renew, duration: real, now: Time, to: Tables, result: Result<RenewAnswer, Error>) {
    result.Success? ==>
      && r.lease in db.leases && r.lease in to.leases && db.leases[r.lease].assignment in db.assignments
      && var before, after := db.leases[r.lease], to.leases[r.lease];
         match result.value
         case Stop => after.notice.Delivered? && after.expiresAt == before.expiresAt
         case Extended(expiresAt) =>
           && after == before.(expiresAt := expiresAt, lastRenewSentAt := after.lastRenewSentAt)
           && Extends(before.expiresAt, expiresAt, now, duration, db.assignments[before.assignment].deadline)
           && after.lastRenewSentAt == if r.sentAt.Some? then r.sentAt else before.lastRenewSentAt
  }

  lemma RenewalOf(db: Tables, r: Renew, duration: real, now: Time)
    requires Reconciled(db, now).leases.Keys == db.leases.Keys
    requires r.lease in db.leases ==>
      && Notified(db, Reconciled(db, now), r.lease)
      && (db.assignments[db.leases[r.lease].assignment].deadline.Some? ==>
            db.leases[r.lease].expiresAt <= db.assignments[db.leases[r.lease].assignment].deadline.value)
    ensures RenewalDecided(db, r, duration, now, RenewLease(db, r, duration, now).db, RenewLease(db, r, duration, now).result)
    ensures RenewalCommitted(db, r, duration, now, RenewLease(db, r, duration, now).db, RenewLease(db, r, duration, now).result)
  {
    hide Reconciled;
    hide Outdated;
  }

  /** A renewal extends exactly a living lease of its owner, in order, commits what it answers, or changes nothing. */
  lemma RenewalExact(db: Tables, r: Renew, duration: real, now: Time)
    requires Invariant(db, now)
    ensures RenewalDecided(db, r, duration, now, RenewLease(db, r, duration, now).db, RenewLease(db, r, duration, now).result)
    ensures RenewalCommitted(db, r, duration, now, RenewLease(db, r, duration, now).db, RenewLease(db, r, duration, now).result)
  {
    Facts(db, now);
    hide Invariant;
    hide RowsOk;
    hide HeldOk;
    hide RenewLease;
    hide RenewalDecided;
    hide RenewalCommitted;
    ReconciledStates(db, now);
    hide Reconciled;
    if r.lease in db.leases {
      ReconciledLease(db, now, r.lease);
      assert LinkOk(r.lease, db.leases[r.lease], db.assignments[db.leases[r.lease].assignment]);
    }
    hide LinksOk;
    hide Cancels;
    RenewalOf(db, r, duration, now);
  }

  /** A renewal extends no other lease. */
  lemma RenewalAlone(db: Tables, r: Renew, duration: real, now: Time, l: Id)
    requires Invariant(db, now) && l in db.leases && l != r.lease
    ensures var to := RenewLease(db, r, duration, now).db;
            l in to.leases && to.leases[l] == db.leases[l].(notice := to.leases[l].notice)
  {
    Facts(db, now);
    hide Invariant;
    hide RowsOk;
    hide LinksOk;
    hide HeldOk;
    hide Cancels;
    hide RenewLease;
    ReconciledLease(db, now, l);
    hide Reconciled;
    OthersAsReconciled(db, r, duration, now, l);
  }

  lemma OthersAsReconciled(db: Tables, r: Renew, duration: real, now: Time, l: Id)
    requires l in db.leases && l in Reconciled(db, now).leases && l != r.lease
    ensures var to := RenewLease(db, r, duration, now).db;
            l in to.leases && (to.leases[l] == db.leases[l] || to.leases[l] == Reconciled(db, now).leases[l])
  {
    hide Reconciled;
    hide ExtendedTo;
  }
}
