/** The foreign keys and unique columns the schema declares, as facts about every state of every run. */
module CoordinatorConstraints {
  import opened Wrappers
  import opened CoordinatorTables
  import opened CoordinatorOperations
  import opened CoordinatorInvariants
  import opened CoordinatorRuns

  // ---------------------------------------------------------------- what the schema declares

  /** `FOREIGN KEY (assignment_id, lease_id) REFERENCES lease_attempts`. */
  ghost predicate AttemptOf(db: Tables, a: Id, l: Id) {
    l in db.leases && db.leases[l].assignment == a
  }

  ghost predicate AssignmentKeys(db: Tables, a: Id)
    requires a in db.assignments
  {
    var row := db.assignments[a];
    && row.group in db.groups && row.policy in db.policies && db.groups[row.group].policy == row.policy
    && (row.current.Some? ==> AttemptOf(db, a, row.current.value))
    && (row.accepted.Some? ==> AttemptOf(db, a, row.accepted.value.lease))
    && (row.outcome.Some? && row.outcome.value.lease.Some? ==> AttemptOf(db, a, row.outcome.value.lease.value))
  }

  ghost predicate LeaseKeys(db: Tables, l: Id)
    requires l in db.leases
  {
    var lease := db.leases[l];
    && lease.assignment in db.assignments
    && lease.session in db.sessions && db.sessions[lease.session].worker == lease.worker
  }

  ghost predicate RequestKeys(db: Tables, r: Id)
    requires r in db.requests
  {
    && db.requests[r].session in db.sessions
    && (db.requests[r].disposition.Granted? ==> db.requests[r].disposition.lease in db.leases)
  }

  ghost predicate ForeignKeys(db: Tables) {
    && db.active in db.policies
    && (forall g :: g in db.groups ==> db.groups[g].policy in db.policies && db.groups[g].key.source in db.sources)
    && (forall a :: a in db.assignments ==> AssignmentKeys(db, a))
    && (forall l :: l in db.leases ==> LeaseKeys(db, l))
    && (forall r :: r in db.requests ==> RequestKeys(db, r))
  }

  ghost predicate PoliciesUnique(db: Tables) {
    forall p, q ::
      && p in db.policies && q in db.policies
      && (db.policies[p].manifest.version == db.policies[q].manifest.version || db.policies[p].manifest == db.policies[q].manifest)
      ==> p == q
  }

  ghost predicate GroupsUnique(db: Tables) {
    forall g, h ::
      && g in db.groups && h in db.groups
      && (db.groups[g].key == db.groups[h].key || db.groups[g].sequence == db.groups[h].sequence)
      ==> g == h
  }

  ghost predicate IndicesUnique(db: Tables) {
    forall a, b ::
      && a in db.assignments && b in db.assignments
      && db.assignments[a].group == db.assignments[b].group && db.assignments[a].index == db.assignments[b].index
      ==> a == b
  }

  ghost predicate AttemptsUnique(db: Tables) {
    forall l, m ::
      && l in db.leases && m in db.leases
      && db.leases[l].assignment == db.leases[m].assignment && db.leases[l].attempt == db.leases[m].attempt
      ==> l == m
  }

  ghost predicate AcceptedUnique(db: Tables) {
    forall a, b ::
      && a in db.assignments && b in db.assignments && db.assignments[a].accepted.Some? && db.assignments[b].accepted.Some?
      && (|| db.assignments[a].accepted.value.lease == db.assignments[b].accepted.value.lease
          || db.assignments[a].accepted.value.digest == db.assignments[b].accepted.value.digest)
      ==> a == b
  }

  ghost predicate FailuresUnique(db: Tables) {
    forall l, m ::
      && l in db.leases && m in db.leases && db.leases[l].failure.Some? && db.leases[m].failure.Some?
      && db.leases[l].failure.value.digest == db.leases[m].failure.value.digest
      ==> l == m
  }

  ghost predicate GrantsUnique(db: Tables) {
    forall r, q ::
      && r in db.requests && q in db.requests && db.requests[r].disposition.Granted?
      && db.requests[q].disposition == db.requests[r].disposition
      ==> r == q
  }

  ghost predicate UniqueColumns(db: Tables) {
    && PoliciesUnique(db) && GroupsUnique(db) && IndicesUnique(db) && AttemptsUnique(db) && AcceptedUnique(db)
    && FailuresUnique(db) && GrantsUnique(db)
  }

  // ---------------------------------------------------------------- why they hold

  lemma AssignmentReferences(db: Tables, a: Id)
    requires RowsOk(db) && HeldOk(db) && PlacedOk(db) && KeysOk(db) && a in db.assignments
    ensures AssignmentKeys(db, a)
  {
    assert RowOk(db.assignments[a]);
    hide RowsOk;
  }

  lemma ForeignKeysHold(db: Tables)
    requires Sound(db)
    ensures ForeignKeys(db)
  {
    forall a | a in db.assignments ensures AssignmentKeys(db, a) {
      hide KeysOk;
      hide LinksOk;
      hide ReadyOk;
      hide NumberedOk;
      hide DistinctOk;
      hide CountedOk;
      hide CatalogOk;
      hide SessionsOk;
      AssignmentReferences(db, a);
    }
    hide RowsOk;
    hide HeldOk;
    hide NumberedOk;
    hide MembersOk;
    hide ReadyOk;
    hide AssignmentKeys;
    hide LinkOk;
    hide SpecOk;
  }

  /** The accepted envelope names the accepted lease, and that lease is of one assignment. */
  lemma AcceptedOnce(db: Tables)
    requires RowsOk(db) && HeldOk(db)
    ensures AcceptedUnique(db)
  {
    forall a | a in db.assignments && db.assignments[a].accepted.Some?
      ensures AttemptOf(db, a, db.assignments[a].accepted.value.lease)
      ensures db.assignments[a].accepted.value.digest.lease == db.assignments[a].accepted.value.lease
    {
      assert RowOk(db.assignments[a]);
    }
    hide RowsOk;
    hide HeldOk;
  }

  lemma FailedOnce(db: Tables)
    requires LinksOk(db)
    ensures FailuresUnique(db)
  {
    forall l | l in db.leases && db.leases[l].failure.Some? ensures db.leases[l].failure.value.digest.lease == l {
      assert LinkOk(l, db.leases[l], db.assignments[db.leases[l].assignment]);
    }
    hide LinksOk;
  }

  lemma UniqueColumnsHold(db: Tables)
    requires Sound(db)
    ensures UniqueColumns(db)
  {
    hide AcceptedUnique;
    hide FailuresUnique;
    hide RowsOk;
    hide LinksOk;
    hide HeldOk;
    hide ReadyOk;
    hide CountedOk;
    hide PlacedOk;
    hide SpecOk;
    hide HasAttempt;
    AcceptedOnce(db);
    FailedOnce(db);
  }

  /** At no point of any run does a committed state violate a foreign key or a unique column. */
  lemma ConstraintsHold(states: seq<Tables>, events: seq<Timed>, retry: Retry, start: Time, i: nat)
    requires IsRun(states, events, retry) && StartsAt(states, events, start) && i <= |events|
    ensures ForeignKeys(states[i]) && UniqueColumns(states[i])
  {
    hide Step;
    hide StartsAt;
    hide Sound;
    hide ForeignKeys;
    hide UniqueColumns;
    hide StaleOk;
    hide CapacityOk;
    hide ClockOk;
    RunKeeps(states, events, retry, start, i);
    ForeignKeysHold(states[i]);
    UniqueColumnsHold(states[i]);
  }
}
