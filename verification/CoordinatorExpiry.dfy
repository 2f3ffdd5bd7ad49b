/** Expiry of leases and cancellation of stale train work keep every invariant. */
module CoordinatorExpiry {
  import opened Wrappers
  import opened CoordinatorTables
  import opened CoordinatorOperations
  import opened CoordinatorInvariants

  /** What every change of one row that issues no lease keeps. */
  predicate QuietRow(a: Assignment, b: Assignment) {
    RowOk(b) && RowEvolves(a, b) && KeepsRefs(a, b) && a.attemptCount == b.attemptCount
  }

  lemma DelayPositive(retry: Retry, attempts: nat)
    requires RetryOk(retry)
    ensures 0.0 < Delay(retry, attempts) <= retry.max
  {
    assert retry.base * Power2(attempts - 1) >= retry.base;
  }

  /** The back-off doubles with every attempt until it reaches the maximum. */
  lemma BackoffDoubles(retry: Retry, attempts: nat)
    requires RetryOk(retry) && attempts >= 1
    ensures Delay(retry, attempts + 1) == (if 2.0 * Delay(retry, attempts) < retry.max then 2.0 * Delay(retry, attempts) else retry.max)
    ensures Delay(retry, 1) == (if retry.base < retry.max then retry.base else retry.max)
  {
    var p := Power2(attempts - 1);
    assert Power2(attempts) == 2.0 * p;
    assert retry.base * (2.0 * p) == 2.0 * (retry.base * p);
  }

  /** A failure is retried exactly when it may be, an attempt is left and the back-off ends before the deadline. */
  lemma RetryDecision(a: Assignment, retry: Retry, now: Time, retryable: bool, l: Id, digest: Option<Digest>)
    requires RowOk(a) && a.current == Some(l) && RetryOk(retry)
    ensures var b := RetryOrFail(a, retry, now, retryable, l, digest);
            var fits := a.deadline.None? || now + Delay(retry, a.attemptCount) < a.deadline.value;
            && (b.state.RetryWait? <==> retryable && a.attemptCount < a.maxAttempts && fits)
            && (b.state.RetryWait? ==> now < b.availableAt <= now + retry.max && !Passed(a.deadline, b.availableAt))
            && (!b.state.RetryWait? ==>
                 && b.state.Failed? && b.outcome.Some? && b.outcome.value.lease == Some(l)
                 && (b.outcome.value.kind == AttemptsExhausted <==> a.attemptCount == a.maxAttempts)
                 && (b.outcome.value.kind == FailureOutcome <==> a.attemptCount < a.maxAttempts && !retryable)
                 && (b.outcome.value.kind == DeadlineExceeded <==> a.attemptCount < a.maxAttempts && retryable && !fits))
  {
    DelayPositive(retry, a.attemptCount);
    hide Delay;
  }

  lemma RetryRow(a: Assignment, retry: Retry, now: Time, retryable: bool, l: Id, digest: Option<Digest>)
    requires RowOk(a) && a.current == Some(l) && a.cancellation.None? && a.createdAt <= now && RetryOk(retry)
    ensures QuietRow(a, RetryOrFail(a, retry, now, retryable, l, digest))
    ensures RetryOrFail(a, retry, now, retryable, l, digest).current.None?
  {
    DelayPositive(retry, a.attemptCount);
    hide Delay;
  }

  lemma AbandonRow(a: Assignment, now: Time, l: Option<Id>, digest: Option<Digest>)
    requires RowOk(a) && a.state.Leased? && a.cancellation.Some? && l == a.current
    ensures QuietRow(a, Abandon(a, now, l, digest)) && Abandon(a, now, l, digest).current.None?
  {
  }

  lemma ExpiryRow(a: Assignment, retry: Retry, now: Time, l: Id)
    requires RowOk(a) && a.current == Some(l) && a.createdAt <= now && RetryOk(retry)
    ensures QuietRow(a, RowAfterExpiry(a, a.cancellation.Some?, retry, now, l))
    ensures RowAfterExpiry(a, a.cancellation.Some?, retry, now, l).current.None?
  {
    if a.cancellation.Some? { AbandonRow(a, now, Some(l), None); } else { RetryRow(a, retry, now, true, l, None); }
  }

  lemma OverdueRow(a: Assignment, now: Time)
    requires RowOk(a) && Waiting(a)
    ensures QuietRow(a, FailRow(a, Outcome(DeadlineExceeded, None, None, now)))
  {
  }

  lemma UnchangedRow(a: Assignment)
    requires RowOk(a)
    ensures QuietRow(a, a)
  {
  }

  /** The lease a row holds is active, and cancelled exactly when the row is. */
  lemma HeldLease(db: Tables, a: Id)
    requires LinksOk(db) && HeldOk(db) && a in db.assignments && db.assignments[a].current.Some?
    ensures var l := db.assignments[a].current.value;
            && l in db.leases && db.leases[l].assignment == a && LinkOk(l, db.leases[l], db.assignments[a])
            && db.leases[l].state.Active? && (!db.leases[l].notice.NotCancelled? <==> db.assignments[a].cancellation.Some?)
  {
    assert LeaseOf(db, db.assignments[a].current, a);
  }

  lemma ExpiredRow(db: Tables, retry: Retry, now: Time, a: Id)
    requires RowsOk(db) && LinksOk(db) && HeldOk(db) && ClockOk(db, now) && RetryOk(retry) && a in db.assignments
    ensures QuietRow(db.assignments[a], AssignmentAfterExpiry(db, retry, now, a))
    ensures HeldDue(db, now, a) ==> AssignmentAfterExpiry(db, retry, now, a).current.None?
  {
    hide QuietRow;
    hide LinkOk;
    hide RowAfterExpiry;
    var row := db.assignments[a];
    UnchangedRow(row);
    if row.current.Some? {
      HeldLease(db, a);
      ExpiryRow(row, retry, now, row.current.value);
    }
    if Waiting(row) { OverdueRow(row, now); }
  }

  /** A lease other than the one that closes sees only a row without a current lease. */
  lemma LinkAfterClose(id: Id, l: Lease, a: Assignment, b: Assignment)
    requires LinkOk(id, l, a) && RowEvolves(a, b) && a.attemptCount == b.attemptCount
    requires a.current != Some(id) && b.current != Some(id) && a.accepted == b.accepted
    ensures LinkOk(id, l, b)
  {
  }

  lemma LinkOfClosed(id: Id, l: Lease, a: Assignment, b: Assignment)
    requires RowOk(a) && LinkOk(id, l, a) && RowEvolves(a, b) && a.attemptCount == b.attemptCount
    requires a.current == Some(id) && b.current.None? && b.accepted.None?
    ensures LinkOk(id, l.(state := LeaseExpired), b)
  {
  }

  lemma ExpiryKeepsAccepted(db: Tables, retry: Retry, now: Time, a: Id)
    requires a in db.assignments
    ensures AssignmentAfterExpiry(db, retry, now, a).accepted == db.assignments[a].accepted
    ensures !HeldDue(db, now, a) ==> AssignmentAfterExpiry(db, retry, now, a).current in {db.assignments[a].current, None}
  {
  }

  lemma ExpiredLink(db: Tables, retry: Retry, now: Time, l: Id)
    requires RowsOk(db) && LinksOk(db) && HeldOk(db) && ClockOk(db, now) && RetryOk(retry) && l in db.leases
    ensures LinkOk(l, LeaseAfterExpiry(db, now, l), AssignmentAfterExpiry(db, retry, now, db.leases[l].assignment))
    ensures LeaseEvolves(db.leases[l], LeaseAfterExpiry(db, now, l))
  {
    hide AssignmentAfterExpiry;
    hide HeldOk;
    var a, lease := db.leases[l].assignment, db.leases[l];
    var row, to := db.assignments[a], AssignmentAfterExpiry(db, retry, now, a);
    ExpiredRow(db, retry, now, a);
    ExpiryKeepsAccepted(db, retry, now, a);
    if row.current != Some(l) {
      LinkAfterClose(l, lease, row, to);
    } else if HeldDue(db, now, a) {
      LinkOfClosed(l, lease, row, to);
    } else {
      assert row.state.Leased?;
      NotDueRow(db, retry, now, a);
    }
  }

  lemma NotDueRow(db: Tables, retry: Retry, now: Time, a: Id)
    requires a in db.assignments && !HeldDue(db, now, a) && db.assignments[a].state.Leased?
    ensures AssignmentAfterExpiry(db, retry, now, a) == db.assignments[a]
  {
  }

  lemma ExpiredLive(db: Tables, now: Time, l: Id, deadline: Option<Time>)
    requires l in db.leases && Occupies(LeaseAfterExpiry(db, now, l), deadline, now)
    ensures Occupies(db.leases[l], deadline, now)
  {
  }

  lemma ExpiredShape(db: Tables, retry: Retry, now: Time)
    requires RowsOk(db) && LinksOk(db) && HeldOk(db) && ClockOk(db, now) && RetryOk(retry)
    ensures var to := Expired(db, retry, now);
            && SameShape(db, to) && RowsOk(to) && HeldOk(to) && RowsEvolve(db, to)
            && forall a :: a in db.assignments ==> to.assignments[a] == AssignmentAfterExpiry(db, retry, now, a)
  {
    hide RowEvolves;
    hide RowOk;
    hide KeepsRefs;
    hide LinksOk;
    hide HeldOk;
    hide ClockOk;
    hide AssignmentAfterExpiry;
    var to := Expired(db, retry, now);
    forall a | a in db.assignments ensures QuietRow(db.assignments[a], to.assignments[a]) {
      ExpiredRow(db, retry, now, a);
    }
    forall a | a in db.assignments ensures SameRowInputs(db.assignments[a], to.assignments[a]) {
      EvolvedInputs(db.assignments[a], to.assignments[a]);
    }
    HeldKept(db, to);
  }

  lemma EvolvedInputs(a: Assignment, b: Assignment)
    requires RowEvolves(a, b)
    ensures SameRowInputs(a, b)
  {
  }

  lemma ExpiredKeeps(db: Tables, retry: Retry, now: Time)
    requires Invariant(db, now) && RetryOk(retry)
    ensures Invariant(Expired(db, retry, now), now) && Evolves(db, Expired(db, retry, now))
  {
    hide AssignmentAfterExpiry;
    hide LeaseAfterExpiry;
    hide LinkOk;
    hide LeaseEvolves;
    hide Occupies;
    hide RowsOk;
    hide HeldOk;
    hide RowsEvolve;
    hide ClockOk;
    hide NumberedOk;
    hide MembersOk;
    hide KeysOk;
    hide CatalogOk;
    hide SessionsOk;
    hide StaleOk;
    hide Evolves;
    hide CapacityOk;
    hide SameRows;
    hide SameSessions;
    hide SameCatalog;
    var to := Expired(db, retry, now);
    ExpiredShape(db, retry, now);
    forall l | l in db.leases
      ensures LinkOk(l, to.leases[l], AssignmentAfterExpiry(db, retry, now, db.leases[l].assignment)) && LeaseEvolves(db.leases[l], to.leases[l])
    {
      ExpiredLink(db, retry, now, l);
    }
    forall l, deadline | l in db.leases && Occupies(to.leases[l], deadline, now) ensures Occupies(db.leases[l], deadline, now) {
      ExpiredLive(db, now, l, deadline);
    }
    assert LinksOk(to) by { LinksFollow(db, to); }
    LiveShrinks(db, to, now);
    QuietStepKeeps(db, to, now);
  }

  lemma LinksFollow(db: Tables, to: Tables)
    requires SameRows(db, to) && SameLeases(db, to) && LinksOk(db)
    requires forall l :: l in db.leases ==> LinkOk(l, to.leases[l], to.assignments[db.leases[l].assignment])
    ensures LinksOk(to)
  {
    hide LinkOk;
    forall l | l in to.leases
      ensures to.leases[l].assignment in to.assignments && LinkOk(l, to.leases[l], to.assignments[to.leases[l].assignment])
    {
      assert SameLeaseInputs(db.leases[l], to.leases[l]);
    }
  }

  /** After expiry no lease is due and no waiting assignment is overdue. */
  lemma ExpiredClears(db: Tables, retry: Retry, now: Time, a: Id, l: Id)
    requires RowsOk(db) && LinksOk(db) && HeldOk(db) && RetryOk(retry)
    ensures a in db.assignments ==>
      !(Waiting(AssignmentAfterExpiry(db, retry, now, a)) && Passed(db.assignments[a].deadline, now))
    ensures l in db.leases ==> !Due(LeaseAfterExpiry(db, now, l), db.assignments[db.leases[l].assignment].deadline, now)
  {
    if a in db.assignments {
      DelayPositive(retry, db.assignments[a].attemptCount);
      hide Delay;
    }
  }

  // ---------------------------------------------------------------- cancellation

  lemma CancelRow(a: Assignment, now: Time)
    requires RowOk(a)
    ensures QuietRow(a, RowAfterCancel(a, now)) && RowAfterCancel(a, now).accepted == a.accepted
    ensures !Waiting(RowAfterCancel(a, now)) && (a.state.Leased? ==> RowAfterCancel(a, now).cancellation.Some?)
  {
  }

  lemma CancelledRow(db: Tables, lag: nat, now: Time, a: Id)
    requires RowsOk(db) && a in db.assignments
    ensures QuietRow(db.assignments[a], AssignmentAfterCancel(db, lag, now, a))
    ensures AssignmentAfterCancel(db, lag, now, a).accepted == db.assignments[a].accepted
  {
    hide QuietRow;
    hide RowAfterCancel;
    CancelRow(db.assignments[a], now);
    UnchangedRow(db.assignments[a]);
  }

  lemma CancelLink(id: Id, l: Lease, a: Assignment, now: Time)
    requires RowOk(a) && LinkOk(id, l, a) && a.current == Some(id)
    ensures LinkOk(id, if l.notice.NotCancelled? then l.(notice := Requested) else l, RowAfterCancel(a, now))
  {
  }

  lemma CancelledLink(db: Tables, lag: nat, now: Time, l: Id)
    requires RowsOk(db) && LinksOk(db) && l in db.leases
    ensures LinkOk(l, LeaseAfterCancel(db, lag, l), AssignmentAfterCancel(db, lag, now, db.leases[l].assignment))
    ensures LeaseEvolves(db.leases[l], LeaseAfterCancel(db, lag, l))
  {
    hide RowAfterCancel;
    var row := db.assignments[db.leases[l].assignment];
    CancelledRow(db, lag, now, db.leases[l].assignment);
    if row.current == Some(l) {
      CancelLink(l, db.leases[l], row, now);
    } else {
      LinkAfterClose(l, db.leases[l], row, AssignmentAfterCancel(db, lag, now, db.leases[l].assignment));
    }
  }

  lemma CancelledLive(db: Tables, lag: nat, l: Id, deadline: Option<Time>, now: Time)
    requires l in db.leases && Occupies(LeaseAfterCancel(db, lag, l), deadline, now)
    ensures Occupies(db.leases[l], deadline, now)
  {
  }

  lemma CancelledShape(db: Tables, lag: nat, now: Time)
    requires RowsOk(db) && HeldOk(db)
    ensures var to := Cancelled(db, lag, now);
            && SameRows(db, to) && SameLeases(db, to) && RowsOk(to) && HeldOk(to) && RowsEvolve(db, to)
  {
    hide RowEvolves;
    hide RowOk;
    hide KeepsRefs;
    hide HeldOk;
    hide AssignmentAfterCancel;
    var to := Cancelled(db, lag, now);
    forall a | a in db.assignments ensures QuietRow(db.assignments[a], to.assignments[a]) {
      CancelledRow(db, lag, now, a);
    }
    forall a | a in db.assignments ensures SameRowInputs(db.assignments[a], to.assignments[a]) {
      EvolvedInputs(db.assignments[a], to.assignments[a]);
    }
    HeldKept(db, to);
  }

  lemma CancelledReady(db: Tables, lag: nat, now: Time)
    requires RowsOk(db) && HeldOk(db) && ReadyOk(db)
    ensures SameGroups(db, Cancelled(db, lag, now)) && ReadyOk(Cancelled(db, lag, now))
  {
    hide StaleGroup;
    hide RowAfterCancel;
    hide RowsOk;
    hide HeldOk;
    hide Settled;
    var to := Cancelled(db, lag, now);
    CancelledShape(db, lag, now);
    forall g | g in db.groups
      ensures (to.groups[g].state.Ready? <==> Settled(to.assignments, g)) || (to.groups[g] == db.groups[g] && Untouched(db, to, g))
    {
      if !StaleGroup(db, lag, g) { assert Untouched(db, to, g); }
    }
    ReadyKept(db, to);
  }

  /** Every stale assignment stops waiting; one under lease is marked cancelled. */
  lemma CancelledStale(db: Tables, lag: nat, now: Time)
    requires RowsOk(db) && HeldOk(db) && db.settings.maxLag == Some(lag)
    ensures StaleOk(Cancelled(db, lag, now))
  {
    hide HeldOk;
    hide RowAfterCancel;
    var to := Cancelled(db, lag, now);
    CancelledShape(db, lag, now);
    forall a | a in to.assignments && StaleGroup(to, lag, to.assignments[a].group)
      ensures !Waiting(to.assignments[a]) && (to.assignments[a].state.Leased? ==> to.assignments[a].cancellation.Some?)
    {
      StaleRowCancelled(db, lag, now, a);
    }
  }

  lemma StaleRowCancelled(db: Tables, lag: nat, now: Time, a: Id)
    requires RowsOk(db) && a in db.assignments
    requires StaleGroup(Cancelled(db, lag, now), lag, AssignmentAfterCancel(db, lag, now, a).group)
    ensures var b := AssignmentAfterCancel(db, lag, now, a); !Waiting(b) && (b.state.Leased? ==> b.cancellation.Some?)
  {
    CancelRow(db.assignments[a], now);
    assert RowAfterCancel(db.assignments[a], now).group == db.assignments[a].group;
    assert StaleGroup(db, lag, db.assignments[a].group);
  }

  lemma CancelledKeeps(db: Tables, lag: nat, now: Time)
    requires Sound(db) && ClockOk(db, now) && CapacityOk(db, now) && db.settings.maxLag == Some(lag)
    ensures Invariant(Cancelled(db, lag, now), now) && Evolves(db, Cancelled(db, lag, now))
  {
    hide AssignmentAfterCancel;
    hide LeaseAfterCancel;
    hide LinkOk;
    hide LeaseEvolves;
    hide Occupies;
    hide RowsOk;
    hide HeldOk;
    hide RowsEvolve;
    hide ClockOk;
    hide NumberedOk;
    hide MembersOk;
    hide KeysOk;
    hide CatalogOk;
    hide SessionsOk;
    hide ReadyOk;
    hide StaleOk;
    hide Evolves;
    hide CapacityOk;
    hide SameRows;
    hide SameGroups;
    var to := Cancelled(db, lag, now);
    CancelledShape(db, lag, now);
    CancelledReady(db, lag, now);
    CancelledStale(db, lag, now);
    forall l | l in db.leases
      ensures LinkOk(l, to.leases[l], AssignmentAfterCancel(db, lag, now, db.leases[l].assignment)) && LeaseEvolves(db.leases[l], to.leases[l])
    {
      CancelledLink(db, lag, now, l);
    }
    forall l, deadline | l in db.leases && Occupies(to.leases[l], deadline, now) ensures Occupies(db.leases[l], deadline, now) {
      CancelledLive(db, lag, l, deadline, now);
    }
    LinksFollow(db, to);
    LiveShrinks(db, to, now);
    QuietStepKeeps(db, to, now);
  }

  lemma ReconciledKeeps(db: Tables, now: Time)
    requires Sound(db) && ClockOk(db, now) && CapacityOk(db, now)
    ensures Invariant(Reconciled(db, now), now) && Evolves(db, Reconciled(db, now))
  {
    hide Cancelled;
    hide Sound;
    hide ClockOk;
    hide CapacityOk;
    hide Evolves;
    if db.settings.maxLag.Some? { CancelledKeeps(db, db.settings.maxLag.value, now); } else { EvolvesReflexive(db); }
  }

  lemma ExpireLeasesKeeps(db: Tables, retry: Retry, now: Time)
    requires Invariant(db, now) && RetryOk(retry)
    ensures Invariant(ExpireLeases(db, retry, now), now) && Evolves(db, ExpireLeases(db, retry, now))
  {
    hide Reconciled;
    hide Expired;
    ReconciledKeeps(db, now);
    ExpiredKeeps(Reconciled(db, now), retry, now);
    EvolvesTransitive(db, Reconciled(db, now), ExpireLeases(db, retry, now));
  }
}
