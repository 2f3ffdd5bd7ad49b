/** The two transactions that add work rows: leasing an assignment and creating a group. */
module CoordinatorGrowth {
  import opened Wrappers
  import opened CoordinatorTables
  import opened CoordinatorOperations
  import opened CoordinatorInvariants
  import opened CoordinatorExpiry
  import opened CoordinatorSteps

  // ---------------------------------------------------------------- leasing

  predicate IssueOk(db: Tables, q: LeaseRequest, a: Id, l: Id, duration: real, now: Time) {
    && a in Candidates(db, now) && l !in db.leases && duration > 0.0
    && q.id in db.requests && db.requests[q.id].disposition.Undecided? && OwnSession(db, q.session, q.worker)
  }

  lemma IssuedRow(a: Assignment, l: Id, now: Time)
    requires RowOk(a) && Schedulable(a, now)
    ensures var b := a.(state := Leased, attemptCount := a.attemptCount + 1, current := Some(l));
            RowOk(b) && RowEvolves(a, b)
  {
  }

  /** The new lease starts after its assignment was created, outlives `now` and ends by the deadline. */
  lemma IssuedLink(a: Id, row: Assignment, q: LeaseRequest, l: Id, duration: real, now: Time)
    requires RowOk(row) && Schedulable(row, now) && duration > 0.0
    ensures var lease := Lease(a, row.attemptCount + 1, q.worker, q.session, now, Capped(now + duration, row.deadline), Active, None, NotCancelled, None);
            LinkOk(l, lease, row.(state := Leased, attemptCount := row.attemptCount + 1, current := Some(l)))
  {
  }

  lemma OlderLink(id: Id, m: Lease, a: Assignment, l: Id)
    requires RowOk(a) && Waiting(a) && LinkOk(id, m, a) && id != l
    ensures LinkOk(id, m, a.(state := Leased, attemptCount := a.attemptCount + 1, current := Some(l)))
  {
  }

  lemma IssuedRows(db: Tables, q: LeaseRequest, a: Id, l: Id, duration: real, now: Time)
    requires IssueOk(db, q, a, l, duration, now) && RowsOk(db)
    ensures var to := Issue(db, q, a, l, duration, now);
            RowsOk(to) && RowsEvolve(db, to) && SameInputs(db, to) && LeasesEvolve(db, to) && SameGroups(db, to)
  {
    hide RowOk;
    hide Schedulable;
    var to := Issue(db, q, a, l, duration, now);
    IssuedRow(db.assignments[a], l, now);
    forall b | b in db.assignments ensures RowEvolves(db.assignments[b], to.assignments[b]) {
    }
  }

  lemma IssuedLinks(db: Tables, q: LeaseRequest, a: Id, l: Id, duration: real, now: Time)
    requires IssueOk(db, q, a, l, duration, now) && RowsOk(db) && LinksOk(db)
    ensures LinksOk(Issue(db, q, a, l, duration, now))
  {
    hide LinkOk;
    hide RowOk;
    var to := Issue(db, q, a, l, duration, now);
    IssuedLink(a, db.assignments[a], q, l, duration, now);
    forall m | m in to.leases
      ensures to.leases[m].assignment in to.assignments && LinkOk(m, to.leases[m], to.assignments[to.leases[m].assignment])
    {
      if m != l && db.leases[m].assignment == a { OlderLink(m, db.leases[m], db.assignments[a], l); }
    }
  }

  lemma IssuedHeld(db: Tables, q: LeaseRequest, a: Id, l: Id, duration: real, now: Time)
    requires IssueOk(db, q, a, l, duration, now) && HeldOk(db)
    ensures HeldOk(Issue(db, q, a, l, duration, now))
  {
    var to := Issue(db, q, a, l, duration, now);
    forall b, m: Option<Id> | LeaseOf(db, m, b) ensures LeaseOf(to, m, b) {
    }
    assert LeaseOf(to, Some(l), a);
  }

  /** The new attempt takes the next number. */
  lemma IssuedNumbered(db: Tables, q: LeaseRequest, a: Id, l: Id, duration: real, now: Time)
    requires IssueOk(db, q, a, l, duration, now) && LinksOk(db) && NumberedOk(db)
    ensures NumberedOk(Issue(db, q, a, l, duration, now))
  {
    hide Schedulable;
    var to := Issue(db, q, a, l, duration, now);
    forall b, k: nat | b in to.assignments && 1 <= k <= to.assignments[b].attemptCount ensures HasAttempt(to, b, k) {
      if b == a && k == db.assignments[a].attemptCount + 1 {
        assert to.leases[l].assignment == b && to.leases[l].attempt == k;
      } else {
        assert HasAttempt(db, b, k);
        var m :| m in db.leases && db.leases[m].assignment == b && db.leases[m].attempt == k;
        assert to.leases[m] == db.leases[m];
      }
    }
    forall m | m in db.leases && db.leases[m].assignment == a ensures db.leases[m].attempt <= db.assignments[a].attemptCount {
      assert LinkOk(m, db.leases[m], db.assignments[a]);
    }
  }

  lemma IssuedReady(db: Tables, q: LeaseRequest, a: Id, l: Id, duration: real, now: Time)
    requires IssueOk(db, q, a, l, duration, now) && ReadyOk(db) && SameInputs(db, Issue(db, q, a, l, duration, now))
    ensures ReadyOk(Issue(db, q, a, l, duration, now))
  {
    var to := Issue(db, q, a, l, duration, now);
    forall g | g in to.groups ensures to.groups[g].state.Ready? <==> Settled(to.assignments, g) {
      if g == db.assignments[a].group {
        assert !Settled(db.assignments, g) && !Settled(to.assignments, g);
      } else {
        assert Untouched(db, to, g);
      }
    }
  }

  lemma IssuedSessions(db: Tables, q: LeaseRequest, a: Id, l: Id, duration: real, now: Time)
    requires IssueOk(db, q, a, l, duration, now) && SessionsOk(db)
    ensures SessionsOk(Issue(db, q, a, l, duration, now))
  {
  }

  lemma IssuedOthers(db: Tables, q: LeaseRequest, a: Id, l: Id, duration: real, now: Time)
    requires IssueOk(db, q, a, l, duration, now)
    ensures var to := Issue(db, q, a, l, duration, now);
            OthersEvolve(db, to) && SameCatalog(db, to) && (CatalogOk(db) ==> CatalogOk(to))
  {
  }

  /** Only the leasing session's occupied slots grow, by the new lease. */
  lemma IssuedCapacity(db: Tables, q: LeaseRequest, a: Id, l: Id, duration: real, now: Time)
    requires IssueOk(db, q, a, l, duration, now) && CapacityOk(db, now) && ClockOk(db, now)
    requires |Live(db, q.session, now)| < db.sessions[q.session].capabilities.slots
    ensures var to := Issue(db, q, a, l, duration, now); CapacityOk(to, now) && ClockOk(to, now)
  {
    hide Schedulable;
    var to := Issue(db, q, a, l, duration, now);
    hide Live;
    forall s | s in to.sessions ensures |Live(to, s, now)| <= to.sessions[s].capabilities.slots {
      IssuedLive(db, q, a, l, duration, now, s);
    }
  }

  lemma IssuedLive(db: Tables, q: LeaseRequest, a: Id, l: Id, duration: real, now: Time, s: Id)
    requires IssueOk(db, q, a, l, duration, now)
    ensures |Live(Issue(db, q, a, l, duration, now), s, now)| <= |Live(db, s, now)| + (if s == q.session then 1 else 0)
  {
    hide Schedulable;
    hide Occupies;
    var to := Issue(db, q, a, l, duration, now);
    var more := if s == q.session then {l} else {};
    assert Live(to, s, now) <= Live(db, s, now) + more;
    Cardinality(Live(to, s, now), Live(db, s, now) + more);
  }

  lemma IssueKeeps(db: Tables, q: LeaseRequest, a: Id, l: Id, duration: real, now: Time)
    requires Invariant(db, now) && IssueOk(db, q, a, l, duration, now)
    requires |Live(db, q.session, now)| < db.sessions[q.session].capabilities.slots
    ensures Invariant(Issue(db, q, a, l, duration, now), now) && Evolves(db, Issue(db, q, a, l, duration, now))
  {
    hide RowsOk;
    hide LinksOk;
    hide HeldOk;
    hide NumberedOk;
    hide DistinctOk;
    hide CountedOk;
    hide PlacedOk;
    hide ReadyOk;
    hide KeysOk;
    hide CatalogOk;
    hide SessionsOk;
    hide StaleOk;
    hide CapacityOk;
    hide ClockOk;
    hide RowsEvolve;
    hide LeasesEvolve;
    hide OthersEvolve;
    hide SameInputs;
    hide SameGroups;
    hide Issue;
    hide Live;
    var to := Issue(db, q, a, l, duration, now);
    hide IssueOk;
    IssuedRows(db, q, a, l, duration, now);
    IssuedLinks(db, q, a, l, duration, now);
    IssuedHeld(db, q, a, l, duration, now);
    IssuedNumbered(db, q, a, l, duration, now);
    IssuedReady(db, q, a, l, duration, now);
    IssuedSessions(db, q, a, l, duration, now);
    IssuedOthers(db, q, a, l, duration, now);
    IssuedCapacity(db, q, a, l, duration, now);
    MembersKept(db, to);
    KeysKept(db, to);
    StaleKept(db, to);
  }

  lemma LeaseNextKeeps(db: Tables, q: LeaseRequest, retry: Retry, duration: real, leaseId: Id, now: Time)
    requires Invariant(db, now) && RetryOk(retry)
    ensures Invariant(LeaseNext(db, q, retry, duration, leaseId, now).db, now)
    ensures Evolves(db, LeaseNext(db, q, retry, duration, leaseId, now).db)
  {
    hide Expired;
    hide Cancelled;
    hide Invariant;
    hide Evolves;
    hide Live;
    hide Choice;
    hide Issue;
    EvolvesReflexive(db);
    var to := LeaseNext(db, q, retry, duration, leaseId, now).db;
    if to != db {
      var lag := db.settings.maxLag.value;
      var d := Cancelled(Expired(db, retry, now), lag, now);
      ReleasedKeeps(db, retry, now);
      if to != d {
        var a := Choice(d, Candidates(d, now), q.loaded, db.settings.preference.value, now);
        IssueKeeps(d, q, a, leaseId, duration, now);
        EvolvesTransitive(db, d, to);
      }
    }
  }

  /** The state a lease is chosen from: expired, then rid of stale work. */
  lemma ReleasedKeeps(db: Tables, retry: Retry, now: Time)
    requires Invariant(db, now) && RetryOk(retry) && db.settings.maxLag.Some?
    ensures var d := Cancelled(Expired(db, retry, now), db.settings.maxLag.value, now);
            && Invariant(d, now) && Evolves(db, d) && d.requests == db.requests && SameSessions(db, d) && d.settings == db.settings
            && d.sources == db.sources && d.policies == db.policies && d.active == db.active && d.lineage == db.lineage
            && (forall s :: s in d.sessions ==> s in db.sessions && d.sessions[s] == db.sessions[s])
  {
    var lag := db.settings.maxLag.value;
    var e := Expired(db, retry, now);
    assert e.settings == db.settings && e.sessions == db.sessions;
    assert SameSessions(db, Cancelled(e, lag, now));
    ExpiredKeeps(db, retry, now);
    CancelledKeeps(e, lag, now);
    hide Invariant;
    hide Evolves;
    EvolvesTransitive(db, e, Cancelled(e, lag, now));
  }

  // ---------------------------------------------------------------- group creation

  /** Each new row sits at the factory identity after its group index. */
  ghost predicate Indexed(rows: map<Id, Assignment>, spec: SourceSpec, policy: Id, g: Id, ids: nat -> Id, now: Time, n: nat) {
    forall a :: a in rows ==>
      rows[a].index < n && a == ids(rows[a].index + 1) && rows[a] == NewRow(spec, policy, g, rows[a].index, now)
  }

  lemma {:induction false} NewRowsHold(spec: SourceSpec, policy: Id, g: Id, ids: nat -> Id, now: Time, n: nat)
    ensures Indexed(NewRows(spec, policy, g, ids, now, n), spec, policy, g, ids, now, n)
  {
    if n > 0 {
      NewRowsHold(spec, policy, g, ids, now, n - 1);
    }
  }

  ghost predicate Distinct(ids: nat -> Id, n: nat) {
    forall i, j :: 1 <= i < j <= n ==> ids(i) != ids(j)
  }

  lemma NewKey(spec: SourceSpec, policy: Id, g: Id, ids: nat -> Id, now: Time, n: nat)
    requires n > 0 && Distinct(ids, n)
    ensures ids(n) !in NewRows(spec, policy, g, ids, now, n - 1)
  {
    NewRowsHold(spec, policy, g, ids, now, n - 1);
    hide NewRows;
    hide NewRow;
  }

  lemma {:induction false} NewRowsCount(spec: SourceSpec, policy: Id, g: Id, ids: nat -> Id, now: Time, n: nat)
    requires Distinct(ids, n)
    ensures |NewRows(spec, policy, g, ids, now, n).Keys| == n
  {
    hide NewRow;
    if n > 0 {
      var rest := NewRows(spec, policy, g, ids, now, n - 1);
      NewKey(spec, policy, g, ids, now, n);
      NewRowsCount(spec, policy, g, ids, now, n - 1);
      assert NewRows(spec, policy, g, ids, now, n).Keys == rest.Keys + {ids(n)};
    }
  }

  predicate NewRowOk(row: Assignment, spec: SourceSpec, policy: Id, g: Id, now: Time) {
    && RowOk(row) && row.state.Pending? && row.attemptCount == 0 && row.group == g && row.policy == policy
    && row.index < spec.groupSize && row.createdAt == now && row.availableAt == now
    && row.current.None? && row.outcome.None? && row.cancellation.None? && !Passed(row.deadline, now)
  }

  ghost predicate GrownOld(db: Tables, to: Tables) {
    && db.assignments.Keys <= to.assignments.Keys && to.leases == db.leases
    && (forall a :: a in db.assignments ==> to.assignments[a] == db.assignments[a])
  }

  ghost predicate GrownNew(db: Tables, to: Tables, spec: SourceSpec, g: Id, now: Time) {
    && g !in db.groups
    && forall a :: a in to.assignments && a !in db.assignments ==> NewRowOk(to.assignments[a], spec, db.active, g, now)
  }

  ghost predicate GrownApart(db: Tables, to: Tables, size: nat) {
    && (forall a, b ::
          && a in to.assignments && b in to.assignments && a !in db.assignments && b !in db.assignments
          && to.assignments[a].index == to.assignments[b].index
          ==> a == b)
    && |to.assignments.Keys - db.assignments.Keys| == size
  }

  /** The assignments after a group of `spec` is created as `g`. */
  ghost predicate GrownWork(db: Tables, to: Tables, spec: SourceSpec, g: Id, now: Time) {
    GrownOld(db, to) && GrownNew(db, to, spec, g, now) && GrownApart(db, to, spec.groupSize)
  }

  /** The group, the source and the sequence number after a group of source `s` is created as `g`. */
  ghost predicate GrownCatalog(db: Tables, to: Tables, s: Id, g: Id) {
    && s in db.sources && SpecOk(db.sources[s].spec)
    && g !in db.groups && g in to.groups
    && to == db.(settings := db.settings.(nextSequence := db.settings.nextSequence + 1),
                 groups := db.groups[g := to.groups[g]], assignments := to.assignments,
                 sources := db.sources[s := Advanced(db.sources[s])])
    && to.groups[g].policy == db.active && to.groups[g].kind == db.sources[s].spec.kind
    && to.groups[g].size == db.sources[s].spec.groupSize && to.groups[g].key == Occurrence(s, db.sources[s].cursor)
    && to.groups[g].sequence == db.settings.nextSequence && to.groups[g].state.Collecting?
  }

  lemma CreatedOld(db: Tables, s: Id, ids: nat -> Id, now: Time)
    requires s in db.sources && SpecOk(db.sources[s].spec) && FreshIds(db, ids, db.sources[s].spec.groupSize)
    ensures var spec := db.sources[s].spec;
            && GrownOld(db, Created(db, s, ids, now))
            && NewRows(spec, db.active, ids(0), ids, now, spec.groupSize).Keys !! db.assignments.Keys
  {
    var spec := db.sources[s].spec;
    NewRowsHold(spec, db.active, ids(0), ids, now, spec.groupSize);
    hide NewRows;
    hide SpecOk;
  }

  lemma NewRowHolds(spec: SourceSpec, policy: Id, g: Id, index: nat, now: Time)
    requires SpecOk(spec) && index < spec.groupSize
    ensures NewRowOk(NewRow(spec, policy, g, index, now), spec, policy, g, now)
  {
  }

  lemma RowsNew(rows: map<Id, Assignment>, spec: SourceSpec, policy: Id, g: Id, ids: nat -> Id, now: Time)
    requires Indexed(rows, spec, policy, g, ids, now, spec.groupSize) && SpecOk(spec)
    ensures forall a :: a in rows ==> NewRowOk(rows[a], spec, policy, g, now)
    ensures forall a, b :: a in rows && b in rows && rows[a].index == rows[b].index ==> a == b
  {
    hide NewRowOk;
    hide NewRow;
    hide SpecOk;
    forall a | a in rows ensures NewRowOk(rows[a], spec, policy, g, now) {
      NewRowHolds(spec, policy, g, rows[a].index, now);
    }
  }

  lemma CreatedWork(db: Tables, s: Id, ids: nat -> Id, now: Time)
    requires s in db.sources && SpecOk(db.sources[s].spec) && FreshIds(db, ids, db.sources[s].spec.groupSize)
    ensures GrownWork(db, Created(db, s, ids, now), db.sources[s].spec, ids(0), now)
  {
    hide NewRows;
    hide NewRowOk;
    hide Indexed;
    hide GrownOld;
    hide SpecOk;
    var spec, to := db.sources[s].spec, Created(db, s, ids, now);
    var rows := NewRows(spec, db.active, ids(0), ids, now, spec.groupSize);
    CreatedOld(db, s, ids, now);
    NewRowsHold(spec, db.active, ids(0), ids, now, spec.groupSize);
    RowsNew(rows, spec, db.active, ids(0), ids, now);
    NewRowsCount(spec, db.active, ids(0), ids, now, spec.groupSize);
    assert to.assignments == db.assignments + rows;
    hide Created;
    assert to.assignments.Keys - db.assignments.Keys == rows.Keys;
  }

  lemma CreatedCatalog(db: Tables, s: Id, ids: nat -> Id, now: Time)
    requires s in db.sources && SpecOk(db.sources[s].spec) && FreshIds(db, ids, db.sources[s].spec.groupSize)
    ensures GrownCatalog(db, Created(db, s, ids, now), s, ids(0))
  {
    hide NewRows;
  }

  lemma GrownRows(db: Tables, to: Tables, spec: SourceSpec, g: Id, now: Time)
    requires GrownOld(db, to) && GrownNew(db, to, spec, g, now) && RowsOk(db) && LinksOk(db)
    ensures RowsOk(to) && LinksOk(to) && RowsEvolve(db, to) && LeasesEvolve(db, to)
  {
    hide LinkOk;
  }

  lemma GrownHeld(db: Tables, to: Tables, spec: SourceSpec, g: Id, now: Time)
    requires GrownOld(db, to) && GrownNew(db, to, spec, g, now) && HeldOk(db)
    ensures HeldOk(to)
  {
    hide RowOk;
    forall a, l: Option<Id> | LeaseOf(db, l, a) ensures LeaseOf(to, l, a) {
    }
  }

  lemma GrownNumbered(db: Tables, to: Tables, spec: SourceSpec, g: Id, now: Time)
    requires GrownOld(db, to) && GrownNew(db, to, spec, g, now) && NumberedOk(db)
    ensures NumberedOk(to)
  {
    hide RowOk;
    forall a, k: nat | a in to.assignments && 1 <= k <= to.assignments[a].attemptCount ensures HasAttempt(to, a, k) {
      assert a in db.assignments;
      assert HasAttempt(db, a, k);
    }
  }

  lemma GrownPlaced(db: Tables, to: Tables, s: Id, g: Id, now: Time)
    requires GrownCatalog(db, to, s, g) && GrownOld(db, to) && GrownNew(db, to, db.sources[s].spec, g, now) && PlacedOk(db)
    ensures PlacedOk(to)
  {
    hide RowOk;
    hide SpecOk;
  }

  lemma GrownDistinct(db: Tables, to: Tables, spec: SourceSpec, g: Id, now: Time)
    requires GrownWork(db, to, spec, g, now) && PlacedOk(db) && DistinctOk(db)
    ensures DistinctOk(to)
  {
    hide RowOk;
  }

  lemma OldMembers(db: Tables, to: Tables, spec: SourceSpec, g: Id, now: Time, h: Id)
    requires GrownOld(db, to) && GrownNew(db, to, spec, g, now) && h != g
    ensures Members(to.assignments, h) == Members(db.assignments, h)
    ensures Settled(to.assignments, h) <==> Settled(db.assignments, h)
  {
    hide RowOk;
  }

  lemma NewMembers(db: Tables, to: Tables, spec: SourceSpec, g: Id, now: Time)
    requires GrownOld(db, to) && GrownNew(db, to, spec, g, now) && PlacedOk(db)
    ensures Members(to.assignments, g) == to.assignments.Keys - db.assignments.Keys
  {
    hide RowOk;
  }

  lemma GrownCounted(db: Tables, to: Tables, s: Id, g: Id, now: Time)
    requires GrownCatalog(db, to, s, g) && GrownWork(db, to, db.sources[s].spec, g, now) && PlacedOk(db) && CountedOk(db)
    ensures CountedOk(to)
  {
    NewMembers(db, to, db.sources[s].spec, g, now);
    forall h | h in db.groups ensures Members(to.assignments, h) == Members(db.assignments, h) {
      OldMembers(db, to, db.sources[s].spec, g, now, h);
    }
    hide GrownOld;
    hide GrownNew;
    hide PlacedOk;
    hide SpecOk;
    hide Members;
  }

  /** A created group has an assignment that can be leased at once. */
  lemma HasNewRow(db: Tables, to: Tables, spec: SourceSpec, g: Id, now: Time) returns (a: Id)
    requires GrownWork(db, to, spec, g, now) && SpecOk(spec)
    ensures a in to.assignments && a !in db.assignments && NewRowOk(to.assignments[a], spec, db.active, g, now)
  {
    hide NewRowOk;
    assert to.assignments.Keys - db.assignments.Keys != {};
    a :| a in to.assignments.Keys - db.assignments.Keys;
  }

  lemma GrownReady(db: Tables, to: Tables, s: Id, g: Id, now: Time)
    requires GrownCatalog(db, to, s, g) && GrownWork(db, to, db.sources[s].spec, g, now) && ReadyOk(db)
    ensures ReadyOk(to)
  {
    hide RowOk;
    hide GrownApart;
    hide GrownOld;
    hide SpecOk;
    var a := HasNewRow(db, to, db.sources[s].spec, g, now);
    assert !Settled(to.assignments, g);
    hide Settled;
    forall h | h in db.groups ensures Settled(to.assignments, h) <==> Settled(db.assignments, h) {
      OldMembers(db, to, db.sources[s].spec, g, now, h);
    }
  }

  /** The creation key and the sequence number are new, so the existing-key branch is never taken. */
  lemma KeyFree(db: Tables, s: Id)
    requires KeysOk(db) && s in db.sources
    ensures !KeyTaken(db, Occurrence(s, db.sources[s].cursor))
  {
  }

  lemma GrownKeys(db: Tables, to: Tables, s: Id, g: Id)
    requires GrownCatalog(db, to, s, g) && KeysOk(db) && CatalogOk(db)
    ensures KeysOk(to)
  {
    hide SpecOk;
    KeyFree(db, s);
    var key := Occurrence(s, db.sources[s].cursor);
    forall h | h in db.groups ensures db.groups[h].key != key && db.groups[h].sequence != db.settings.nextSequence {
      assert !KeyTaken(db, key);
    }
  }

  lemma OthersGrown(db: Tables, to: Tables, s: Id)
    requires s in db.sources && db.sources[s].spec.weight > 0.0 && Version(db) == Version(to)
    requires to == db.(settings := to.settings, groups := to.groups, assignments := to.assignments,
                       sources := db.sources[s := Advanced(db.sources[s])])
    requires forall g :: g in db.groups ==> g in to.groups && to.groups[g] == db.groups[g]
    ensures OthersEvolve(db, to)
  {
    hide Cost;
    hide Version;
  }

  lemma GrownOthers(db: Tables, to: Tables, s: Id, g: Id)
    requires GrownCatalog(db, to, s, g) && CatalogOk(db)
    ensures OthersEvolve(db, to) && CatalogOk(to)
  {
    hide Cost;
    OthersGrown(db, to, s);
  }

  lemma GrownSlots(db: Tables, to: Tables, spec: SourceSpec, g: Id, now: Time)
    requires GrownOld(db, to) && GrownNew(db, to, spec, g, now) && LinksOk(db)
    requires CapacityOk(db, now) && ClockOk(db, now) && to.sessions == db.sessions
    ensures CapacityOk(to, now) && ClockOk(to, now)
    ensures forall z :: Live(to, z, now) == Live(db, z, now)
  {
    hide RowOk;
    hide LinkOk;
    hide Occupies;
    forall z ensures Live(to, z, now) == Live(db, z, now) {
    }
  }

  lemma GrownSessions(db: Tables, to: Tables, s: Id, g: Id)
    requires GrownCatalog(db, to, s, g) && SessionsOk(db)
    ensures SessionsOk(to)
  {
  }

  /** A group made for the active policy has lag zero. */
  lemma GrownStale(db: Tables, to: Tables, s: Id, g: Id, now: Time)
    requires GrownCatalog(db, to, s, g) && GrownOld(db, to) && GrownNew(db, to, db.sources[s].spec, g, now)
    requires StaleOk(db) && PlacedOk(db) && CatalogOk(db)
    ensures StaleOk(to)
  {
    hide RowOk;
    assert Version(to) == Version(db);
    if to.settings.maxLag.Some? {
      var lag := to.settings.maxLag.value;
      assert !StaleGroup(to, lag, g);
      forall a | a in to.assignments && StaleGroup(to, lag, to.assignments[a].group)
        ensures a in db.assignments && StaleGroup(db, lag, db.assignments[a].group)
      {
      }
    }
  }

  lemma CreatedKeeps(db: Tables, s: Id, ids: nat -> Id, now: Time)
    requires Invariant(db, now) && s in db.sources
    requires SpecOk(db.sources[s].spec) && FreshIds(db, ids, db.sources[s].spec.groupSize)
    ensures Invariant(Created(db, s, ids, now), now) && Evolves(db, Created(db, s, ids, now))
  {
    hide RowsOk;
    hide LinksOk;
    hide HeldOk;
    hide NumberedOk;
    hide DistinctOk;
    hide CountedOk;
    hide PlacedOk;
    hide ReadyOk;
    hide KeysOk;
    hide CatalogOk;
    hide SessionsOk;
    hide StaleOk;
    hide CapacityOk;
    hide ClockOk;
    hide RowsEvolve;
    hide LeasesEvolve;
    hide OthersEvolve;
    hide FreshIds;
    hide GrownOld;
    hide GrownNew;
    hide GrownApart;
    hide GrownCatalog;
    hide Live;
    var to, g, spec := Created(db, s, ids, now), ids(0), db.sources[s].spec;
    CreatedWork(db, s, ids, now);
    CreatedCatalog(db, s, ids, now);
    assert to.sessions == db.sessions;
    hide Created;
    hide SpecOk;
    GrownRows(db, to, spec, g, now);
    GrownHeld(db, to, spec, g, now);
    GrownNumbered(db, to, spec, g, now);
    GrownPlaced(db, to, s, g, now);
    GrownDistinct(db, to, spec, g, now);
    GrownCounted(db, to, s, g, now);
    GrownReady(db, to, s, g, now);
    GrownKeys(db, to, s, g);
    GrownOthers(db, to, s, g);
    GrownSlots(db, to, spec, g, now);
    GrownSessions(db, to, s, g);
    GrownStale(db, to, s, g, now);
  }

  lemma CreateNextGroupKeeps(db: Tables, kind: Option<Kind>, ids: nat -> Id, now: Time)
    requires Invariant(db, now)
    ensures Invariant(CreateNextGroup(db, kind, ids, now).db, now) && Evolves(db, CreateNextGroup(db, kind, ids, now).db)
  {
    hide Created;
    hide Evolves;
    hide RowsOk;
    hide LinksOk;
    hide HeldOk;
    hide NumberedOk;
    hide MembersOk;
    hide ReadyOk;
    hide KeysOk;
    hide SessionsOk;
    hide StaleOk;
    hide CapacityOk;
    hide ClockOk;
    hide SpecOk;
    hide FreshIds;
    hide KeyTaken;
    hide IsNext;
    EvolvesReflexive(db);
    if Enabled(db.sources, kind) != {} {
      var s := Next(db.sources, Enabled(db.sources, kind));
      assert s in db.sources by { NextListed(db.sources, Enabled(db.sources, kind)); }
      KeyFree(db, s);
      if FreshIds(db, ids, db.sources[s].spec.groupSize) { CreatedKeeps(db, s, ids, now); }
    }
  }

  lemma NextListed(sources: map<Id, Source>, among: set<Id>)
    requires among != {} && among <= sources.Keys
    ensures Next(sources, among) in among && Next(sources, among) in sources
  {
  }
}
