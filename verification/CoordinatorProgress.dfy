/** A pending request with a free slot is always served when some source is enabled. */
module CoordinatorProgress {
  import opened Wrappers
  import opened CoordinatorTables
  import opened CoordinatorOperations
  import opened CoordinatorInvariants
  import opened CoordinatorExpiry
  import opened CoordinatorSteps
  import opened CoordinatorGrowth

  /** The identities the two lease attempts and the group creation would generate. */
  datatype Identities = Identities(first: Id, ids: nat -> Id, second: Id)

  /** `lease_or_create_next_compatible`, each of its transactions reading the clock anew. */
  ghost function LeaseOrCreate(db: Tables, q: LeaseRequest, retry: Retry, duration: real, made: Identities, clock: nat -> Time): Reply<Option<Id>>
    requires forall s :: s in db.sources ==> SpecOk(db.sources[s].spec)
  {
    var leased := LeaseNext(db, q, retry, duration, made.first, clock(0));
    if leased.result.Failure? || leased.result.value.Some? || !CanGenerate(leased.db, q, clock(1)) then leased
    else
      assert leased.db.sources == db.sources by { LeaseNextSources(db, q, retry, duration, made.first, clock(0)); }
      var created := CreateNextGroup(leased.db, None, made.ids, clock(2));
      if created.result.Failure? || created.result.value.None? then created
      else LeaseNext(created.db, q, retry, duration, made.second, clock(3))
  }

  lemma LeaseNextSources(db: Tables, q: LeaseRequest, retry: Retry, duration: real, leaseId: Id, now: Time)
    ensures LeaseNext(db, q, retry, duration, leaseId, now).db.sources == db.sources
  {
    hide Live;
    hide Choice;
  }

  /** The tables a lease is chosen from. */
  function Released(db: Tables, retry: Retry, lag: nat, now: Time): Tables {
    Cancelled(Expired(db, retry, now), lag, now)
  }

  lemma ReleasedLive(db: Tables, retry: Retry, lag: nat, now: Time, session: Id)
    ensures |Live(Released(db, retry, lag, now), session, now)| <= |Live(db, session, now)|
  {
    hide AssignmentAfterExpiry;
    hide AssignmentAfterCancel;
    var e := Expired(db, retry, now);
    var d := Released(db, retry, lag, now);
    forall l | l in Live(d, session, now) ensures l in Live(db, session, now) {
      LiveBefore(db, retry, lag, now, session, l);
    }
    Cardinality(Live(d, session, now), Live(db, session, now));
  }

  lemma LiveBefore(db: Tables, retry: Retry, lag: nat, now: Time, session: Id, l: Id)
    requires l in Live(Released(db, retry, lag, now), session, now)
    ensures l in Live(db, session, now)
  {
    var a := db.leases[l].assignment;
    hide RowAfterExpiry;
    hide RowAfterCancel;
    hide StaleGroup;
    DeadlineKept(db, retry, lag, now, a);
  }

  lemma DeadlineKept(db: Tables, retry: Retry, lag: nat, now: Time, a: Id)
    requires a in db.assignments
    ensures a in Released(db, retry, lag, now).assignments
    ensures Released(db, retry, lag, now).assignments[a].deadline == db.assignments[a].deadline
  {
    hide StaleGroup;
  }

  lemma ReleasedInvariant(db: Tables, retry: Retry, now: Time)
    requires Invariant(db, now) && RetryOk(retry) && db.settings.maxLag.Some?
    ensures Invariant(Released(db, retry, db.settings.maxLag.value, now), now)
  {
    hide Invariant;
    hide Evolves;
    hide SameSessions;
    hide Expired;
    hide Cancelled;
    ReleasedKeeps(db, retry, now);
  }

  /** Everything a request needs for a lease except something to lease. */
  ghost predicate Served(db: Tables, q: LeaseRequest, duration: real, now: Time) {
    && duration > 0.0 && q.id in db.requests && db.requests[q.id].disposition.Undecided?
    && OwnSession(db, q.session, q.worker) && KnownPolicies(db, q.loaded)
    && db.settings.maxLag.Some? && db.settings.preference.Some?
    && |Live(db, q.session, now)| < db.sessions[q.session].capabilities.slots
  }

  lemma ReleasedRest(db: Tables, retry: Retry, lag: nat, now: Time)
    ensures var d := Released(db, retry, lag, now);
            && d.sessions == db.sessions && d.requests == db.requests && d.policies == db.policies && d.settings == db.settings
            && d.leases.Keys == db.leases.Keys && d.groups.Keys == db.groups.Keys && d.assignments.Keys == db.assignments.Keys
            && d.sources == db.sources && d.active == db.active
  {
  }

  /** With something to lease the request gets the new lease; otherwise the released tables are committed. */
  lemma ServedLease(db: Tables, q: LeaseRequest, retry: Retry, duration: real, leaseId: Id, now: Time)
    requires Served(db, q, duration, now) && leaseId !in db.leases
    ensures var d := Released(db, retry, db.settings.maxLag.value, now);
            var r := LeaseNext(db, q, retry, duration, leaseId, now);
            if Candidates(d, now) == {} then r == Reply(d, Success(None))
            else r.result == Success(Some(leaseId)) && leaseId in r.db.leases && r.db.leases[leaseId].state.Active?
                 && r.db.leases[leaseId].session == q.session && r.db.groups.Keys == db.groups.Keys
  {
    hide Live;
    hide Candidates;
    hide Choice;
    var lag := db.settings.maxLag.value;
    ReleasedLive(db, retry, lag, now, q.session);
    ReleasedRest(db, retry, lag, now);
    hide Cancelled;
    hide Expired;
  }

  /** A row just created survives release: it is not due, overdue or stale. */
  lemma NewRowReleased(db: Tables, retry: Retry, lag: nat, now: Time, a: Id)
    requires a in db.assignments && db.assignments[a].current.None? && !Passed(db.assignments[a].deadline, now)
    requires !StaleGroup(db, lag, db.assignments[a].group)
    ensures var d := Released(db, retry, lag, now); a in d.assignments && d.assignments[a] == db.assignments[a]
  {
    hide RowAfterExpiry;
    hide RowAfterCancel;
    var e := Expired(db, retry, now);
    assert e.assignments[a] == db.assignments[a];
    assert !StaleGroup(e, lag, db.assignments[a].group);
  }

  lemma CreatedSchedulable(db: Tables, to: Tables, retry: Retry, s: Id, g: Id, lag: nat, now: Time)
    requires GrownCatalog(db, to, s, g) && GrownWork(db, to, db.sources[s].spec, g, now)
    ensures Candidates(Released(to, retry, lag, now), now) != {}
  {
    hide GrownOld;
    hide GrownNew;
    hide GrownApart;
    hide Released;
    hide RowOk;
    hide SpecOk;
    var a := HasNewRow(db, to, db.sources[s].spec, g, now);
    assert !StaleGroup(to, lag, g);
    NewRowReleased(to, retry, lag, now, a);
    assert a in Candidates(Released(to, retry, lag, now), now);
  }

  lemma CreatedServes(db: Tables, q: LeaseRequest, retry: Retry, duration: real, s: Id, ids: nat -> Id, now: Time)
    requires Invariant(db, now) && Served(db, q, duration, now)
    requires s in db.sources && SpecOk(db.sources[s].spec) && FreshIds(db, ids, db.sources[s].spec.groupSize)
    ensures var to := Created(db, s, ids, now);
            && Served(to, q, duration, now) && to.leases == db.leases && to.groups.Keys == db.groups.Keys + {ids(0)}
            && to.settings.maxLag == db.settings.maxLag
            && Candidates(Released(to, retry, db.settings.maxLag.value, now), now) != {}
  {
    hide Invariant;
    hide NewRows;
    hide GrownOld;
    hide GrownNew;
    hide GrownApart;
    hide GrownCatalog;
    hide Live;
    hide SpecOk;
    hide FreshIds;
    hide LinksOk;
    hide CapacityOk;
    hide ClockOk;
    hide Candidates;
    hide Released;
    var to, g := Created(db, s, ids, now), ids(0);
    SlotFacts(db, now);
    CreatedWork(db, s, ids, now);
    CreatedCatalog(db, s, ids, now);
    GrownSlots(db, to, db.sources[s].spec, g, now);
    CreatedSchedulable(db, to, retry, s, g, db.settings.maxLag.value, now);
  }

  lemma CreatesServed(db: Tables, ids: nat -> Id, now: Time) returns (s: Id)
    requires Invariant(db, now) && Enabled(db.sources, None) != {}
    requires FreshIds(db, ids, db.sources[Next(db.sources, Enabled(db.sources, None))].spec.groupSize)
    ensures s in db.sources && SpecOk(db.sources[s].spec) && FreshIds(db, ids, db.sources[s].spec.groupSize)
    ensures CreateNextGroup(db, None, ids, now) == Reply(Created(db, s, ids, now), Success(Some(ids(0))))
  {
    hide Created;
    hide FreshIds;
    hide SpecOk;
    s := Next(db.sources, Enabled(db.sources, None));
    NextListed(db.sources, Enabled(db.sources, None));
    KeyFree(db, s);
  }

  /** Nothing is schedulable in the committed tables `d`: a group is created and one of its assignments leased. */
  lemma ServedByNewGroup(d: Tables, q: LeaseRequest, retry: Retry, duration: real, ids: nat -> Id, second: Id, now: Time)
    requires Invariant(d, now) && Served(d, q, duration, now) && second !in d.leases && Enabled(d.sources, None) != {}
    requires FreshIds(d, ids, d.sources[Next(d.sources, Enabled(d.sources, None))].spec.groupSize)
    requires forall s :: s in d.sources ==> SpecOk(d.sources[s].spec)
    ensures var created := CreateNextGroup(d, None, ids, now);
            var r := LeaseNext(created.db, q, retry, duration, second, now);
            && created.result == Success(Some(ids(0))) && r.result == Success(Some(second))
            && second in r.db.leases && r.db.leases[second].state.Active? && r.db.leases[second].session == q.session
            && r.db.groups.Keys == d.groups.Keys + {ids(0)}
  {
    hide Invariant;
    hide Served;
    hide Released;
    hide LeaseNext;
    hide Created;
    hide CreateNextGroup;
    hide FreshIds;
    hide SpecOk;
    hide Candidates;
    var s := CreatesServed(d, ids, now);
    CreatedServes(d, q, retry, duration, s, ids, now);
    ServedLease(Created(d, s, ids, now), q, retry, duration, second, now);
  }

  /**
   With the clock fixed, a pending request with a free slot gets a lease whenever a source is enabled,
   and a group is created only when nothing was schedulable.
   */
  lemma AlwaysServed(db: Tables, q: LeaseRequest, retry: Retry, duration: real, made: Identities, clock: nat -> Time, now: Time)
    requires Invariant(db, now) && RetryOk(retry) && (forall i :: clock(i) == now)
    requires Served(db, q, duration, now) && made.first !in db.leases && made.second !in db.leases
    requires Enabled(db.sources, None) != {}
    requires FreshIds(db, made.ids, db.sources[Next(db.sources, Enabled(db.sources, None))].spec.groupSize)
    ensures var r := LeaseOrCreate(db, q, retry, duration, made, clock);
            && r.result.Success? && r.result.value.Some?
            && r.result.value.value in r.db.leases && r.result.value.value !in db.leases
            && r.db.leases[r.result.value.value].state.Active? && r.db.leases[r.result.value.value].session == q.session
            && r.db.groups.Keys == if Candidates(Released(db, retry, db.settings.maxLag.value, now), now) == {}
                                   then db.groups.Keys + {made.ids(0)} else db.groups.Keys
  {
    hide Invariant;
    hide Evolves;
    hide Released;
    hide LeaseNext;
    hide CreateNextGroup;
    hide SpecOk;
    hide Candidates;
    hide Live;
    hide FreshIds;
    SourceFacts(db, now);
    var lag := db.settings.maxLag.value;
    var d := Released(db, retry, lag, now);
    ServedLease(db, q, retry, duration, made.first, now);
    if Candidates(d, now) == {} {
      ReleasedRest(db, retry, lag, now);
      ReleasedLive(db, retry, lag, now, q.session);
      ReleasedInvariant(db, retry, now);
      ServedAgain(db, d, q, duration, made.ids, now);
      SourceFacts(d, now);
      ServedByNewGroup(d, q, retry, duration, made.ids, made.second, now);
    }
  }

  /** Release leaves the request as serviceable, and identities as fresh, as they were. */
  lemma ServedAgain(db: Tables, d: Tables, q: LeaseRequest, duration: real, ids: nat -> Id, now: Time)
    requires Served(db, q, duration, now)
    requires d.sessions == db.sessions && d.requests == db.requests && d.policies == db.policies && d.settings == db.settings
    requires d.groups.Keys == db.groups.Keys && d.assignments.Keys == db.assignments.Keys
    requires |Live(d, q.session, now)| <= |Live(db, q.session, now)|
    ensures Served(d, q, duration, now) && (Candidates(d, now) == {} ==> CanGenerate(d, q, now))
    ensures forall n :: FreshIds(db, ids, n) ==> FreshIds(d, ids, n)
  {
    hide Live;
    hide Candidates;
  }

  /**
   The leased assignment is schedulable, and another schedulable one precedes it only when the first of
   all has waited less than the preference time, the worker has loaded the leased one's policy and not
   the other's. An assignment that has waited that long is never overtaken.
   */
  lemma LeasedInOrder(db: Tables, q: LeaseRequest, retry: Retry, duration: real, leaseId: Id, now: Time, b: Id)
    requires Served(db, q, duration, now) && leaseId !in db.leases
    requires var d := Released(db, retry, db.settings.maxLag.value, now); Candidates(d, now) != {} && b in Candidates(d, now)
    ensures var d := Released(db, retry, db.settings.maxLag.value, now);
            var to := LeaseNext(db, q, retry, duration, leaseId, now).db;
            && leaseId in to.leases && to.leases[leaseId].assignment in Candidates(d, now)
            && (Before(d, b, to.leases[leaseId].assignment) ==>
                  && d.assignments[to.leases[leaseId].assignment].policy in q.loaded && d.assignments[b].policy !in q.loaded
                  && now - d.assignments[First(d, Candidates(d, now))].availableAt < db.settings.preference.value)
  {
    hide Live;
    hide Released;
    hide Schedulable;
    var d := Released(db, retry, db.settings.maxLag.value, now);
    ServedChoice(db, q, retry, duration, leaseId, now);
    ChoiceInOrder(d, Candidates(d, now), q.loaded, db.settings.preference.value, now, b);
    hide Choice;
    hide LeaseNext;
  }

  lemma ChoiceInOrder(d: Tables, s: set<Id>, loaded: seq<Id>, preference: real, now: Time, b: Id)
    requires s != {} && s <= d.assignments.Keys && b in s
    ensures var a := Choice(d, s, loaded, preference, now);
            Before(d, b, a) ==>
              && d.assignments[a].policy in loaded && d.assignments[b].policy !in loaded
              && now - d.assignments[First(d, s)].availableAt < preference
  {
    assert IsFirst(d, s, First(d, s));
    assert d.assignments[b].policy in loaded ==> b in Loaded(d, s, loaded);
    if Loaded(d, s, loaded) != {} { assert IsFirst(d, Loaded(d, s, loaded), First(d, Loaded(d, s, loaded))); }
  }

  lemma ServedChoice(db: Tables, q: LeaseRequest, retry: Retry, duration: real, leaseId: Id, now: Time)
    requires Served(db, q, duration, now) && leaseId !in db.leases
    requires Candidates(Released(db, retry, db.settings.maxLag.value, now), now) != {}
    ensures var d := Released(db, retry, db.settings.maxLag.value, now);
            var to := LeaseNext(db, q, retry, duration, leaseId, now).db;
            && Candidates(d, now) <= d.assignments.Keys && leaseId in to.leases
            && to.leases[leaseId].assignment == Choice(d, Candidates(d, now), q.loaded, db.settings.preference.value, now)
  {
    hide Live;
    hide Choice;
    hide Schedulable;
    ReleasedLive(db, retry, db.settings.maxLag.value, now, q.session);
    ReleasedRest(db, retry, db.settings.maxLag.value, now);
    hide Cancelled;
    hide Expired;
  }
}
