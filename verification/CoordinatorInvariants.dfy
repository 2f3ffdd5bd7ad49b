/** Every coordinator transaction keeps the tables consistent and only lets rows evolve. */
module CoordinatorInvariants {
  import opened Wrappers
  import opened CoordinatorTables
  import opened CoordinatorOperations

  predicate RetryOk(retry: Retry) { retry.base > 0.0 && retry.max > 0.0 }

  ghost predicate Invariant(db: Tables, now: Time) {
    Sound(db) && StaleOk(db) && CapacityOk(db, now) && ClockOk(db, now)
  }

  lemma RowFacts(db: Tables, now: Time, a: Id)
    requires Invariant(db, now) && a in db.assignments
    ensures RowOk(db.assignments[a])
  {
  }

  lemma LinkFacts(db: Tables, now: Time, l: Id)
    requires Invariant(db, now) && l in db.leases
    ensures db.leases[l].assignment in db.assignments && LinkOk(l, db.leases[l], db.assignments[db.leases[l].assignment])
  {
  }

  lemma SourceFacts(db: Tables, now: Time)
    requires Invariant(db, now)
    ensures forall s :: s in db.sources ==> SpecOk(db.sources[s].spec)
  {
    hide SpecOk;
  }

  lemma SlotFacts(db: Tables, now: Time)
    requires Invariant(db, now)
    ensures LinksOk(db) && CapacityOk(db, now) && ClockOk(db, now)
  {
  }

  // ---------------------------------------------------------------- steps that keep every key

  ghost predicate SameInputs(db: Tables, to: Tables) {
    && to.assignments.Keys == db.assignments.Keys
    && forall a :: a in db.assignments ==> SameRowInputs(db.assignments[a], to.assignments[a])
  }

  ghost predicate SameRows(db: Tables, to: Tables) {
    && SameInputs(db, to)
    && forall a :: a in db.assignments ==> db.assignments[a].attemptCount == to.assignments[a].attemptCount
  }

  ghost predicate SameLeases(db: Tables, to: Tables) {
    to.leases.Keys == db.leases.Keys && forall l :: l in db.leases ==> SameLeaseInputs(db.leases[l], to.leases[l])
  }

  ghost predicate SameGroups(db: Tables, to: Tables) {
    && to.groups.Keys == db.groups.Keys
    && forall g :: g in db.groups ==> to.groups[g] == db.groups[g].(state := to.groups[g].state)
  }

  ghost predicate SameSessions(db: Tables, to: Tables) {
    to.sessions.Keys == db.sessions.Keys && forall s :: s in db.sessions ==> SessionEvolves(db.sessions[s], to.sessions[s])
  }

  ghost predicate SameCatalog(db: Tables, to: Tables) {
    && to.policies == db.policies && to.sources == db.sources && to.settings == db.settings
    && to.active == db.active && to.lineage == db.lineage
  }

  ghost predicate SameShape(db: Tables, to: Tables) {
    && SameRows(db, to) && SameLeases(db, to) && SameGroups(db, to) && SameSessions(db, to) && SameCatalog(db, to)
    && to.requests == db.requests
  }

  lemma NumberedKept(db: Tables, to: Tables)
    requires SameRows(db, to) && SameLeases(db, to) && NumberedOk(db)
    ensures NumberedOk(to)
  {
    forall a, k: nat | a in to.assignments && 1 <= k <= to.assignments[a].attemptCount ensures HasAttempt(to, a, k) {
      assert HasAttempt(db, a, k);
      var l :| l in db.leases && db.leases[l].assignment == a && db.leases[l].attempt == k;
      assert SameLeaseInputs(db.leases[l], to.leases[l]);
    }
    forall l, m | l in to.leases && m in to.leases && to.leases[l].assignment == to.leases[m].assignment
                  && to.leases[l].attempt == to.leases[m].attempt ensures l == m {
      assert SameLeaseInputs(db.leases[l], to.leases[l]) && SameLeaseInputs(db.leases[m], to.leases[m]);
    }
  }

  lemma DistinctKept(db: Tables, to: Tables)
    requires SameInputs(db, to) && DistinctOk(db)
    ensures DistinctOk(to)
  {
    forall a, b | a in to.assignments && b in to.assignments && to.assignments[a].group == to.assignments[b].group
                  && to.assignments[a].index == to.assignments[b].index ensures a == b {
      assert SameRowInputs(db.assignments[a], to.assignments[a]) && SameRowInputs(db.assignments[b], to.assignments[b]);
    }
  }

  lemma CountedKept(db: Tables, to: Tables)
    requires SameInputs(db, to) && SameGroups(db, to) && CountedOk(db)
    ensures CountedOk(to)
  {
    forall g | g in to.groups ensures |Members(to.assignments, g)| == to.groups[g].size {
      assert Members(to.assignments, g) == Members(db.assignments, g);
    }
  }

  lemma MembersKept(db: Tables, to: Tables)
    requires SameInputs(db, to) && SameGroups(db, to) && MembersOk(db)
    ensures MembersOk(to)
  {
    hide DistinctOk;
    hide CountedOk;
    DistinctKept(db, to);
    CountedKept(db, to);
  }

  lemma KeysKept(db: Tables, to: Tables)
    requires SameGroups(db, to) && SameCatalog(db, to) && KeysOk(db)
    ensures KeysOk(to)
  {
  }

  lemma SessionsKept(db: Tables, to: Tables)
    requires SameLeases(db, to) && SameSessions(db, to) && to.requests == db.requests && SessionsOk(db)
    ensures SessionsOk(to)
  {
  }

  lemma StaleKept(db: Tables, to: Tables)
    requires SameInputs(db, to) && SameGroups(db, to) && SameCatalog(db, to)
    requires StaleOk(db) && RowsEvolve(db, to)
    ensures StaleOk(to)
  {
    if to.settings.maxLag.Some? {
      var lag := to.settings.maxLag.value;
      forall a | a in to.assignments && StaleGroup(to, lag, to.assignments[a].group)
        ensures !Waiting(to.assignments[a]) && (to.assignments[a].state.Leased? ==> to.assignments[a].cancellation.Some?)
      {
        assert SameRowInputs(db.assignments[a], to.assignments[a]);
        assert StaleGroup(db, lag, db.assignments[a].group);
        StaleRowKept(db.assignments[a], to.assignments[a]);
      }
    }
  }

  lemma StaleRowKept(a: Assignment, b: Assignment)
    requires RowEvolves(a, b) && !Waiting(a) && (a.state.Leased? ==> a.cancellation.Some?)
    ensures !Waiting(b) && (b.state.Leased? ==> b.cancellation.Some?)
  {
  }

  /** References in `b` are those of `a` or its current lease. */
  predicate KeepsRefs(a: Assignment, b: Assignment) {
    && (b.current == a.current || b.current == None)
    && (b.outcome.Some? ==> b.outcome == a.outcome || b.outcome.value.lease == a.current || b.outcome.value.lease == None)
  }

  lemma HeldKept(db: Tables, to: Tables)
    requires SameRows(db, to) && SameLeases(db, to) && HeldOk(db)
    requires forall a :: a in db.assignments ==> KeepsRefs(db.assignments[a], to.assignments[a])
    ensures HeldOk(to)
  {
    forall a, l: Option<Id> | LeaseOf(db, l, a) ensures LeaseOf(to, l, a) {
      if l.Some? { assert SameLeaseInputs(db.leases[l.value], to.leases[l.value]); }
    }
  }

  ghost predicate Untouched(db: Tables, to: Tables, g: Id) {
    forall a :: a in db.assignments && db.assignments[a].group == g ==>
      a in to.assignments && to.assignments[a] == db.assignments[a]
  }

  lemma ReadyKept(db: Tables, to: Tables)
    requires SameInputs(db, to) && SameGroups(db, to) && ReadyOk(db)
    requires forall g :: g in db.groups ==>
      || (to.groups[g].state.Ready? <==> Settled(to.assignments, g))
      || (to.groups[g] == db.groups[g] && Untouched(db, to, g))
    ensures ReadyOk(to)
  {
    forall g | g in to.groups && to.groups[g] == db.groups[g] && Untouched(db, to, g)
      ensures Settled(db.assignments, g) <==> Settled(to.assignments, g)
    {
    }
  }

  /** A settled group stays settled, so readiness is never taken back. */
  lemma SettledStays(db: Tables, to: Tables, g: Id)
    requires SameInputs(db, to) && RowsEvolve(db, to) && Settled(db.assignments, g)
    ensures Settled(to.assignments, g)
  {
    forall a | a in to.assignments && to.assignments[a].group == g ensures Terminal(to.assignments[a]) {
      assert SameRowInputs(db.assignments[a], to.assignments[a]);
      TerminalStays(db.assignments[a], to.assignments[a]);
    }
  }

  lemma TerminalStays(a: Assignment, b: Assignment)
    requires RowEvolves(a, b) && Terminal(a)
    ensures b == a
  {
  }

  lemma OthersKept(db: Tables, to: Tables)
    requires SameShape(db, to) && RowsEvolve(db, to) && ReadyOk(db) && ReadyOk(to)
    ensures OthersEvolve(db, to)
  {
    hide RowsEvolve;
    hide SameInputs;
    forall g | g in db.groups ensures GroupEvolves(db.groups[g], to.groups[g]) {
      if db.groups[g].state.Ready? { SettledStays(db, to, g); }
    }
  }

  lemma LiveShrinks(db: Tables, to: Tables, now: Time)
    requires SameRows(db, to) && SameLeases(db, to) && SameSessions(db, to) && CapacityOk(db, now)
    requires forall l, deadline :: l in db.leases && Occupies(to.leases[l], deadline, now) ==> Occupies(db.leases[l], deadline, now)
    ensures CapacityOk(to, now)
    ensures forall s :: Live(to, s, now) <= Live(db, s, now)
  {
    hide Occupies;
    forall s ensures Live(to, s, now) <= Live(db, s, now) {
      forall l | l in Live(to, s, now) ensures l in Live(db, s, now) {
        assert SameLeaseInputs(db.leases[l], to.leases[l]);
        assert SameRowInputs(db.assignments[db.leases[l].assignment], to.assignments[db.leases[l].assignment]);
      }
    }
    forall s | s in to.sessions ensures |Live(to, s, now)| <= to.sessions[s].capabilities.slots {
      Cardinality(Live(to, s, now), Live(db, s, now));
    }
  }

  lemma {:induction false} Cardinality<T>(a: set<T>, b: set<T>)
    requires a <= b
    ensures |a| <= |b|
    decreases |a|
  {
    if a != {} {
      var x :| x in a;
      Cardinality(a - {x}, b - {x});
    }
  }

  /** Time alone frees slots and takes none. */
  lemma ClockAdvances(db: Tables, now: Time, later: Time)
    requires Invariant(db, now) && now <= later
    ensures Invariant(db, later)
  {
    hide Sound;
    hide StaleOk;
    forall s | s in db.sessions ensures |Live(db, s, later)| <= db.sessions[s].capabilities.slots {
      assert Live(db, s, later) <= Live(db, s, now);
      Cardinality(Live(db, s, later), Live(db, s, now));
    }
  }

  lemma ClockKept(db: Tables, to: Tables, now: Time)
    requires SameRows(db, to) && SameLeases(db, to) && ClockOk(db, now)
    ensures ClockOk(to, now)
  {
    forall l | l in to.leases ensures to.leases[l].issuedAt <= now { assert SameLeaseInputs(db.leases[l], to.leases[l]); }
    forall a | a in to.assignments ensures to.assignments[a].createdAt <= now { assert SameRowInputs(db.assignments[a], to.assignments[a]); }
  }

  /** What is left to show of a step that keeps every key. */
  ghost predicate QuietStep(db: Tables, to: Tables, now: Time) {
    && SameShape(db, to) && RowsOk(to) && LinksOk(to) && HeldOk(to) && ReadyOk(to)
    && RowsEvolve(db, to) && LeasesEvolve(db, to) && CapacityOk(to, now)
  }

  lemma QuietStepKeeps(db: Tables, to: Tables, now: Time)
    requires Sound(db) && ClockOk(db, now) && QuietStep(db, to, now)
    ensures Sound(to) && ClockOk(to, now) && CapacityOk(to, now) && Evolves(db, to)
    ensures StaleOk(db) ==> StaleOk(to)
  {
    hide SameInputs;
    hide SameLeases;
    hide SameGroups;
    hide SameSessions;
    hide RowsOk;
    hide LinksOk;
    hide HeldOk;
    hide ReadyOk;
    hide RowsEvolve;
    hide LeasesEvolve;
    hide CapacityOk;
    hide NumberedOk;
    hide MembersOk;
    hide KeysOk;
    hide SessionsOk;
    hide StaleOk;
    hide OthersEvolve;
    hide ClockOk;
    NumberedKept(db, to);
    MembersKept(db, to);
    KeysKept(db, to);
    SessionsKept(db, to);
    if StaleOk(db) { StaleKept(db, to); }
    OthersKept(db, to);
    ClockKept(db, to, now);
    assert CatalogOk(to);
  }
}
