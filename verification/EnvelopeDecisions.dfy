/** Exactly which results and failures are accepted, and what accepting one changes, in the columns of the tables alone. */
module EnvelopeDecisions {
  import opened Wrappers
  import opened CoordinatorTables
  import opened CoordinatorOperations
  import opened CoordinatorInvariants
  import opened CoordinatorExpiry
  import opened CoordinatorEffects

  /** The envelope names the active lease its assignment is under, by its owner and attempt, in time. */
  predicate NamesCurrent(db: Tables, a: Id, attempt: nat, l: Id, worker: Id, session: Id, now: Time) {
    && a in db.assignments && l in db.leases
    && db.leases[l].state == Active && db.leases[l].assignment == a && db.assignments[a].current == Some(l)
    && db.leases[l].attempt == attempt && db.leases[l].worker == worker && db.leases[l].session == session
    && now < db.leases[l].expiresAt
    && (db.assignments[a].deadline.Some? ==> now < db.assignments[a].deadline.value)
  }

  /** Nothing but assignment `a`, lease `l` and the state of their group differs. */
  ghost predicate Touches(db: Tables, to: Tables, a: Id, l: Id) {
    && to == db.(assignments := to.assignments, leases := to.leases, groups := to.groups)
    && to.assignments.Keys == db.assignments.Keys && to.leases.Keys == db.leases.Keys && to.groups.Keys == db.groups.Keys
    && (forall b :: b in db.assignments && b != a ==> to.assignments[b] == db.assignments[b])
    && (forall m :: m in db.leases && m != l ==> to.leases[m] == db.leases[m])
    && (forall g :: g in db.groups ==> to.groups[g] == db.groups[g].(state := to.groups[g].state))
    && (forall g :: g in db.groups && a in db.assignments && g != db.assignments[a].group ==> to.groups[g] == db.groups[g])
  }

  /** The group is ready exactly when every member has ended. */
  ghost predicate GroupCounts(to: Tables, a: Id) {
    a in to.assignments && to.assignments[a].group in to.groups ==>
      (to.groups[to.assignments[a].group].state == Ready <==>
         forall b :: b in to.assignments && to.assignments[b].group == to.assignments[a].group ==>
           to.assignments[b].state == Succeeded || to.assignments[b].state == Failed)
  }

  lemma ClosedTouches(db: Tables, a: Id, row: Assignment, l: Id, lease: Lease)
    requires a in db.assignments && l in db.leases && row.group == db.assignments[a].group
    ensures var to := RecomputeGroup(db.(assignments := db.assignments[a := row], leases := db.leases[l := lease]), row.group);
            Touches(db, to, a, l) && GroupCounts(to, a) && to.assignments[a] == row && to.leases[l] == lease
  {
    ClosedCounts(db.(assignments := db.assignments[a := row], leases := db.leases[l := lease]), a);
    hide GroupCounts;
    hide Settled;
  }

  lemma ClosedCounts(db: Tables, a: Id)
    requires a in db.assignments
    ensures GroupCounts(RecomputeGroup(db, db.assignments[a].group), a)
  {
  }

  lemma RowFactsOf(db: Tables, now: Time, a: Id)
    requires Invariant(db, now)
    ensures a in db.assignments ==>
      && RowOk(db.assignments[a])
      && (db.assignments[a].current.Some? ==>
            && db.assignments[a].current.value in db.leases && db.leases[db.assignments[a].current.value].assignment == a
            && LinkOk(db.assignments[a].current.value, db.leases[db.assignments[a].current.value], db.assignments[a]))
      && db.assignments[a].policy in db.policies
  {
    if a in db.assignments && db.assignments[a].current.Some? { HeldAssignment(db, now, a); }
    if a in db.assignments { PolicyKnown(db, now, a); }
    hide LinksOk;
    hide HeldOk;
    hide NumberedOk;
    hide MembersOk;
    hide ReadyOk;
    hide KeysOk;
    hide CatalogOk;
    hide SessionsOk;
    hide StaleOk;
    hide CapacityOk;
    hide ClockOk;
    hide RowOk;
  }

  lemma HeldAssignment(db: Tables, now: Time, a: Id)
    requires Invariant(db, now) && a in db.assignments && db.assignments[a].current.Some?
    ensures var l := db.assignments[a].current.value;
            l in db.leases && db.leases[l].assignment == a && LinkOk(l, db.leases[l], db.assignments[a])
  {
    hide RowsOk;
    hide NumberedOk;
    hide MembersOk;
    hide ReadyOk;
    hide KeysOk;
    hide CatalogOk;
    hide SessionsOk;
    hide StaleOk;
    hide CapacityOk;
    hide ClockOk;
    HeldLease(db, a);
  }

  lemma PolicyKnown(db: Tables, now: Time, a: Id)
    requires Invariant(db, now) && a in db.assignments
    ensures db.assignments[a].policy in db.policies
  {
    hide RowsOk;
    hide LinksOk;
    hide HeldOk;
    hide NumberedOk;
    hide DistinctOk;
    hide CountedOk;
    hide ReadyOk;
    hide CatalogOk;
    hide SessionsOk;
    hide StaleOk;
    hide CapacityOk;
    hide ClockOk;
  }

  /**
   A result is accepted for the first time exactly when its assignment has no outcome, it names the current active
   lease in time, and it was made with exactly the assignment's policy; an equal envelope is acknowledged again.
   */
  lemma ResultDecided(db: Tables, e: ResultEnvelope, now: Time)
    requires Invariant(db, now)
    ensures var r := AcceptResult(db, e, now);
            && (r.result == Success(Acknowledgement(false, true)) <==>
                  && NamesCurrent(db, e.assignment, e.attempt, e.lease, e.worker, e.session, now)
                  && db.assignments[e.assignment].outcome.None?
                  && e.requestedPolicy == db.assignments[e.assignment].policy
                  && e.requestedPolicy in db.policies && db.policies[e.requestedPolicy].manifest == e.requestedDigest)
            && (r.result == Success(Acknowledgement(true, true)) <==>
                  e.assignment in db.assignments && db.assignments[e.assignment].accepted == Some(Acceptance(e.lease, e)))
            && (r.result.Success? ==> r.result.value.terminal)
            && (r.result != Success(Acknowledgement(false, true)) ==> r.db == db)
  {
    hide Invariant;
    hide CommitResult;
    RowFactsOf(db, now, e.assignment);
  }

  /** An accepted result finishes its assignment and its lease, and only those. */
  lemma ResultCommitted(db: Tables, e: ResultEnvelope, now: Time)
    requires AcceptResult(db, e, now).result == Success(Acknowledgement(false, true))
    ensures var to := AcceptResult(db, e, now).db;
            && e.assignment in db.assignments && e.lease in db.leases && Touches(db, to, e.assignment, e.lease)
            && GroupCounts(to, e.assignment)
            && to.leases[e.lease] == db.leases[e.lease].(state := LeaseSucceeded)
            && to.assignments[e.assignment]
               == db.assignments[e.assignment].(
                    state := Succeeded, current := None, accepted := Some(Acceptance(e.lease, e)),
                    outcome := Some(Outcome(ResultOutcome, Some(e.lease), Some(OfResult(e)), now)),
                    cancellation := if db.assignments[e.assignment].cancellation.Some? then Some(true) else None)
  {
    hide RecomputeGroup;
    hide Touches;
    hide GroupCounts;
    if e.assignment in db.assignments && e.lease in db.leases {
      ClosedTouches(db, e.assignment, RowAfterResult(db.assignments[e.assignment], e, now), e.lease,
                    db.leases[e.lease].(state := LeaseSucceeded));
    }
  }

  /**
   A failure is recorded for the first time exactly when its lease has no failure on record and it names the
   current active lease in time; an equal envelope is acknowledged again with the verdict on record.
   */
  lemma FailureDecided(db: Tables, retry: Retry, e: FailureEnvelope, now: Time)
    requires Invariant(db, now)
    ensures var r := AcceptFailure(db, retry, e, now);
            && (r.result.Success? && !r.result.value.duplicate <==>
                  && NamesCurrent(db, e.assignment, e.attempt, e.lease, e.worker, e.session, now)
                  && db.leases[e.lease].failure.None?)
            && (r.result.Success? && r.result.value.duplicate <==>
                  e.lease in db.leases && db.leases[e.lease].failure.Some? && db.leases[e.lease].failure.value.digest == e)
            && (r.result.Success? && r.result.value.duplicate ==> r.result.value.terminal == db.leases[e.lease].failure.value.terminal)
            && (!(r.result.Success? && !r.result.value.duplicate) ==> r.db == db)
  {
    hide Invariant;
    hide CommitFailure;
    RowFactsOf(db, now, e.assignment);
    if e.lease in db.leases { LinkFacts(db, now, e.lease); }
  }

  /** A recorded failure closes its lease, and its assignment waits for another attempt or ends. */
  lemma FailureCommitted(db: Tables, retry: Retry, e: FailureEnvelope, now: Time)
    requires Invariant(db, now)
    requires AcceptFailure(db, retry, e, now).result.Success? && !AcceptFailure(db, retry, e, now).result.value.duplicate
    ensures var to := AcceptFailure(db, retry, e, now).db;
            && e.assignment in db.assignments && e.lease in db.leases && Touches(db, to, e.assignment, e.lease)
            && GroupCounts(to, e.assignment)
            && var row, ended, terminal := db.assignments[e.assignment], to.assignments[e.assignment], AcceptFailure(db, retry, e, now).result.value.terminal;
               && to.leases[e.lease] == db.leases[e.lease].(state := LeaseFailed, failure := Some(FailureRecord(e, terminal)))
               && (terminal <==> ended.state == Failed)
               && (if db.leases[e.lease].notice == NotCancelled
                   then AttemptEnds(row, ended, retry, now, e.retryable, e.lease, Some(OfFailure(e)))
                   else CancelledEnds(row, ended, now, e.lease, Some(OfFailure(e))))
  {
    hide Invariant;
    hide AcceptFailure;
    hide AttemptEnds;
    hide CancelledEnds;
    hide RowAfterFailure;
    hide RetryOrFail;
    hide Touches;
    hide GroupCounts;
    RowFactsOf(db, now, e.assignment);
    FailureShape(db, retry, e, now);
    var row := db.assignments[e.assignment];
    AttemptEnding(row, retry, now, e.retryable, e.lease, Some(OfFailure(e)));
    FailedRowIs(row, !db.leases[e.lease].notice.NotCancelled?, retry, e, now);
  }

  lemma FailedRowIs(row: Assignment, cancelled: bool, retry: Retry, e: FailureEnvelope, now: Time)
    requires RowOk(row) && row.state.Leased? && (cancelled ==> row.cancellation.Some?)
    ensures var to := RowAfterFailure(row, cancelled, retry, e, now);
            && to.group == row.group && (Terminal(to) <==> to.state == Failed)
            && (if cancelled then CancelledEnds(row, to, now, e.lease, Some(OfFailure(e)))
                else to == RetryOrFail(row, retry, now, e.retryable, e.lease, Some(OfFailure(e))))
  {
    hide Delay;
  }

  lemma FailedGroup(row: Assignment, cancelled: bool, retry: Retry, e: FailureEnvelope, now: Time)
    ensures RowAfterFailure(row, cancelled, retry, e, now).group == row.group
  {
    hide Delay;
  }

  lemma CommittedFailure(db: Tables, retry: Retry, e: FailureEnvelope, now: Time)
    requires e.assignment in db.assignments && e.lease in db.leases
    ensures var to := CommitFailure(db, retry, e, now);
            && Touches(db, to, e.assignment, e.lease) && GroupCounts(to, e.assignment)
            && var row := RowAfterFailure(db.assignments[e.assignment], !db.leases[e.lease].notice.NotCancelled?, retry, e, now);
               && to.assignments[e.assignment] == row
               && to.leases[e.lease] == db.leases[e.lease].(state := LeaseFailed, failure := Some(FailureRecord(e, Terminal(row))))
  {
    var row := RowAfterFailure(db.assignments[e.assignment], !db.leases[e.lease].notice.NotCancelled?, retry, e, now);
    FailedGroup(db.assignments[e.assignment], !db.leases[e.lease].notice.NotCancelled?, retry, e, now);
    hide RowAfterFailure;
    hide RecomputeGroup;
    hide Touches;
    hide GroupCounts;
    ClosedTouches(db, e.assignment, row, e.lease,
                  db.leases[e.lease].(state := LeaseFailed, failure := Some(FailureRecord(e, Terminal(row)))));
  }

  lemma FailureShape(db: Tables, retry: Retry, e: FailureEnvelope, now: Time)
    requires AcceptFailure(db, retry, e, now).result.Success? && !AcceptFailure(db, retry, e, now).result.value.duplicate
    ensures var to := AcceptFailure(db, retry, e, now).db;
            && e.assignment in db.assignments && e.lease in db.leases && Touches(db, to, e.assignment, e.lease)
            && GroupCounts(to, e.assignment)
            && var row := RowAfterFailure(db.assignments[e.assignment], !db.leases[e.lease].notice.NotCancelled?, retry, e, now);
               && to.assignments[e.assignment] == row
               && to.leases[e.lease] == db.leases[e.lease].(state := LeaseFailed, failure := Some(FailureRecord(e, Terminal(row))))
               && AcceptFailure(db, retry, e, now).result.value.terminal == Terminal(row)
               && db.assignments[e.assignment].state.Leased? && db.assignments[e.assignment].current == Some(e.lease)
  {
    hide RowAfterFailure;
    hide CommitFailure;
    hide Touches;
    hide GroupCounts;
    if e.assignment in db.assignments && e.lease in db.leases { CommittedFailure(db, retry, e, now); }
  }
}
