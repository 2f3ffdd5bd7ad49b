/** The remaining transactions keep the invariants: renewals, envelopes, policies, sessions and requests. */
module CoordinatorSteps {
  import opened Wrappers
  import opened CoordinatorTables
  import opened CoordinatorOperations
  import opened CoordinatorInvariants
  import opened CoordinatorExpiry

  // ---------------------------------------------------------------- leases alone: heartbeats and renewals

  /** Changes of leases that close none and give none more life than it had. */
  predicate LeaseStepOk(id: Id, l: Lease, m: Lease, a: Assignment, now: Time) {
    LinkOk(id, m, a) && LeaseEvolves(l, m) && (m.state.Active? && now < m.expiresAt ==> l.state.Active? && now < l.expiresAt)
    && (l.notice.Delivered? ==> m.notice.Delivered?)
  }

  lemma LeasesStep(db: Tables, to: Tables, now: Time)
    requires Invariant(db, now) && SameSessions(db, to) && to.leases.Keys == db.leases.Keys
    requires to == db.(leases := to.leases, sessions := to.sessions)
    requires forall l :: l in db.leases ==>
      LeaseStepOk(l, db.leases[l], to.leases[l], db.assignments[db.leases[l].assignment], now)
    ensures Invariant(to, now) && Evolves(db, to)
  {
    hide LinkOk;
    hide RowsOk;
    hide HeldOk;
    hide ReadyOk;
    hide NumberedOk;
    hide MembersOk;
    hide KeysOk;
    hide CatalogOk;
    hide SessionsOk;
    hide StaleOk;
    hide ClockOk;
    hide CapacityOk;
    hide Evolves;
    hide SameSessions;
    assert SameLeases(db, to);
    assert SameRows(db, to);
    assert RowsOk(to) && ReadyOk(to) && RowsEvolve(db, to) by { RowsAlone(db, to); }
    HeldKept(db, to);
    LinksFollow(db, to);
    LiveShrinks(db, to, now);
    QuietStepKeeps(db, to, now);
  }

  lemma RowsAlone(db: Tables, to: Tables)
    requires to.assignments == db.assignments && to.groups == db.groups && RowsOk(db) && ReadyOk(db)
    ensures RowsOk(to) && ReadyOk(to) && RowsEvolve(db, to)
  {
  }

  lemma BeatStep(id: Id, l: Lease, a: Assignment, now: Time, duration: real)
    requires RowOk(a) && LinkOk(id, l, a)
    ensures LeaseStepOk(id, l, BeatLease(l, a, now, duration), a, now)
    ensures LeaseStepOk(id, l, l, a, now)
  {
  }

  lemma RecordHeartbeatKeeps(db: Tables, h: Heartbeat, duration: real, now: Time)
    requires Invariant(db, now)
    ensures Invariant(RecordHeartbeat(db, h, duration, now).db, now) && Evolves(db, RecordHeartbeat(db, h, duration, now).db)
  {
    hide Reconciled;
    hide BeatLease;
    hide LeaseStepOk;
    hide LinkOk;
    hide Answer;
    hide Evolves;
    hide CapacityOk;
    hide StaleOk;
    hide ClockOk;
    hide HeldOk;
    hide NumberedOk;
    hide MembersOk;
    hide ReadyOk;
    hide KeysOk;
    hide CatalogOk;
    hide SessionsOk;
    var to := RecordHeartbeat(db, h, duration, now).db;
    EvolvesReflexive(db);
    if RecordHeartbeat(db, h, duration, now).result.Success? {
      var d := Reconciled(db, now);
      ReconciledKeeps(db, now);
      ReconcileKeepsSessions(db, now);
      forall l | l in d.leases ensures LeaseStepOk(l, d.leases[l], to.leases[l], d.assignments[d.leases[l].assignment], now) {
        BeatStep(l, d.leases[l], d.assignments[d.leases[l].assignment], now, duration);
      }
      LeasesStep(d, to, now);
      EvolvesTransitive(db, d, to);
    }
  }

  lemma ReconcileKeepsSessions(db: Tables, now: Time)
    ensures Reconciled(db, now).sessions == db.sessions && Reconciled(db, now).requests == db.requests
    ensures Reconciled(db, now).settings == db.settings
  {
  }

  lemma RenewStep(id: Id, l: Lease, a: Assignment, r: Renew, duration: real, now: Time)
    requires RowOk(a) && LinkOk(id, l, a) && l.state.Active? && now < l.expiresAt
    requires r.sentAt.Some? ==> !NotAfter(r.sentAt.value, l.lastRenewSentAt)
    ensures LeaseStepOk(id, l, l.(expiresAt := ExtendedTo(l, a, now, duration),
                                  lastRenewSentAt := if r.sentAt.Some? then r.sentAt else l.lastRenewSentAt), a, now)
  {
  }

  lemma DeliverStep(id: Id, l: Lease, a: Assignment, now: Time)
    requires LinkOk(id, l, a) && !l.notice.NotCancelled?
    ensures LeaseStepOk(id, l, l.(notice := if l.notice.Requested? then Delivered(now) else l.notice), a, now)
  {
  }

  lemma RenewLeaseKeeps(db: Tables, r: Renew, duration: real, now: Time)
    requires Invariant(db, now)
    ensures Invariant(RenewLease(db, r, duration, now).db, now) && Evolves(db, RenewLease(db, r, duration, now).db)
  {
    hide Reconciled;
    hide ExtendedTo;
    hide LeaseStepOk;
    hide LinkOk;
    hide Evolves;
    hide CapacityOk;
    hide StaleOk;
    hide ClockOk;
    hide HeldOk;
    hide NumberedOk;
    hide MembersOk;
    hide ReadyOk;
    hide KeysOk;
    hide CatalogOk;
    hide SessionsOk;
    hide SessionEvolves;
    var to := RenewLease(db, r, duration, now).db;
    EvolvesReflexive(db);
    if RenewLease(db, r, duration, now).result.Success? {
      var d := Reconciled(db, now);
      ReconciledKeeps(db, now);
      var l, row := d.leases[r.lease], d.assignments[d.leases[r.lease].assignment];
      if l.notice.NotCancelled? { RenewStep(r.lease, l, row, r, duration, now); } else { DeliverStep(r.lease, l, row, now); }
      forall m | m in d.leases ensures LeaseStepOk(m, d.leases[m], to.leases[m], d.assignments[d.leases[m].assignment], now) {
        BeatStep(m, d.leases[m], d.assignments[d.leases[m].assignment], now, duration);
      }
      SessionsReflexive(d, to);
      LeasesStep(d, to, now);
      EvolvesTransitive(db, d, to);
    }
  }

  lemma SessionsReflexive(db: Tables, to: Tables)
    requires to.sessions == db.sessions
    ensures SameSessions(db, to)
  {
  }

  // ---------------------------------------------------------------- one lease closes with its assignment's row

  function Closed(db: Tables, a: Id, row: Assignment, l: Id, lease: Lease): Tables {
    RecomputeGroup(db.(assignments := db.assignments[a := row], leases := db.leases[l := lease]), row.group)
  }

  predicate ClosesOk(a: Assignment, row: Assignment, l: Id, lease: Lease, closed: Lease) {
    && a.current == Some(l) && row.current.None? && QuietRow(a, row) && a.accepted.None?
    && (row.accepted.Some? ==> row.accepted.value.lease == l)
    && LinkOk(l, closed, row) && LeaseEvolves(lease, closed) && !closed.state.Active?
  }

  lemma LinkBesideClosed(id: Id, m: Lease, a: Assignment, row: Assignment, l: Id)
    requires LinkOk(id, m, a) && RowOk(a) && QuietRow(a, row) && a.current == Some(l) && row.current.None? && id != l
    requires a.accepted.None? && (row.accepted.Some? ==> row.accepted.value.lease == l)
    ensures LinkOk(id, m, row)
  {
  }

  lemma ClosedLeases(db: Tables, a: Id, row: Assignment, l: Id, closed: Lease)
    requires a in db.assignments && l in db.leases && ClosesOk(db.assignments[a], row, l, db.leases[l], closed)
    ensures SameLeases(db, Closed(db, a, row, l, closed)) && LeasesEvolve(db, Closed(db, a, row, l, closed))
  {
    hide LinkOk;
    hide QuietRow;
  }

  lemma ClosedRows(db: Tables, a: Id, row: Assignment, l: Id, closed: Lease)
    requires RowsOk(db) && LinksOk(db) && HeldOk(db) && a in db.assignments && l in db.leases
    requires db.leases[l].assignment == a && ClosesOk(db.assignments[a], row, l, db.leases[l], closed)
    ensures var to := Closed(db, a, row, l, closed);
            SameRows(db, to) && SameLeases(db, to) && RowsOk(to) && HeldOk(to) && RowsEvolve(db, to) && LeasesEvolve(db, to)
  {
    hide LinkOk;
    hide HeldOk;
    hide RowOk;
    hide LeaseEvolves;
    hide SameLeaseInputs;
    var to := Closed(db, a, row, l, closed);
    forall b | b in db.assignments ensures QuietRow(db.assignments[b], to.assignments[b]) {
      UnchangedRow(db.assignments[b]);
    }
    ClosedLeases(db, a, row, l, closed);
    HeldKept(db, to);
  }

  lemma ClosedLinks(db: Tables, a: Id, row: Assignment, l: Id, closed: Lease)
    requires RowsOk(db) && LinksOk(db) && HeldOk(db) && a in db.assignments && l in db.leases
    requires db.leases[l].assignment == a && ClosesOk(db.assignments[a], row, l, db.leases[l], closed)
    ensures LinksOk(Closed(db, a, row, l, closed))
  {
    hide LinkOk;
    hide RowOk;
    hide QuietRow;
    hide LeaseEvolves;
    hide RowsEvolve;
    hide LeasesEvolve;
    hide HeldOk;
    var to := Closed(db, a, row, l, closed);
    ClosedRows(db, a, row, l, closed);
    forall m | m in db.leases ensures LinkOk(m, to.leases[m], to.assignments[db.leases[m].assignment]) {
      if db.leases[m].assignment == a && m != l { LinkBesideClosed(m, db.leases[m], db.assignments[a], row, l); }
    }
    LinksFollow(db, to);
  }

  lemma ClosedReady(db: Tables, a: Id, row: Assignment, l: Id, closed: Lease)
    requires ReadyOk(db) && PlacedOk(db) && a in db.assignments
    requires SameRows(db, Closed(db, a, row, l, closed)) && row.group == db.assignments[a].group
    ensures SameGroups(db, Closed(db, a, row, l, closed)) && ReadyOk(Closed(db, a, row, l, closed))
  {
    hide Settled;
    var to := Closed(db, a, row, l, closed);
    forall g | g in db.groups
      ensures (to.groups[g].state.Ready? <==> Settled(to.assignments, g)) || (to.groups[g] == db.groups[g] && Untouched(db, to, g))
    {
      if g != row.group { assert Untouched(db, to, g); }
    }
    ReadyKept(db, to);
  }

  lemma ClosedKeeps(db: Tables, a: Id, row: Assignment, l: Id, closed: Lease, now: Time)
    requires Invariant(db, now) && a in db.assignments && l in db.leases
    requires db.leases[l].assignment == a && ClosesOk(db.assignments[a], row, l, db.leases[l], closed)
    ensures Invariant(Closed(db, a, row, l, closed), now) && Evolves(db, Closed(db, a, row, l, closed))
  {
    hide RowsOk;
    hide LinksOk;
    hide LinkOk;
    hide RowOk;
    hide RowEvolves;
    hide LeaseEvolves;
    hide KeepsRefs;
    hide HeldOk;
    hide ReadyOk;
    hide NumberedOk;
    hide DistinctOk;
    hide CountedOk;
    hide PlacedOk;
    hide KeysOk;
    hide CatalogOk;
    hide SessionsOk;
    hide StaleOk;
    hide ClockOk;
    hide CapacityOk;
    hide Evolves;
    hide SameSessions;
    hide SameRows;
    hide SameGroups;
    hide RowsEvolve;
    var to := Closed(db, a, row, l, closed);
    ClosedRows(db, a, row, l, closed);
    ClosedLinks(db, a, row, l, closed);
    assert row.group == db.assignments[a].group by { EvolvedInputs(db.assignments[a], row); }
    ClosedReady(db, a, row, l, closed);
    SessionsReflexive(db, to);
    LiveShrinks(db, to, now);
    QuietStepKeeps(db, to, now);
  }

  // ---------------------------------------------------------------- envelopes

  lemma ResultCloses(db: Tables, e: ResultEnvelope, now: Time)
    requires RowsOk(db) && LinksOk(db) && HeldOk(db) && ResultError(db, e, now).None?
    ensures ClosesOk(db.assignments[e.assignment], RowAfterResult(db.assignments[e.assignment], e, now),
                     e.lease, db.leases[e.lease], db.leases[e.lease].(state := LeaseSucceeded))
  {
    HeldLease(db, e.assignment);
  }

  lemma AcceptResultKeeps(db: Tables, e: ResultEnvelope, now: Time)
    requires Invariant(db, now)
    ensures Invariant(AcceptResult(db, e, now).db, now) && Evolves(db, AcceptResult(db, e, now).db)
  {
    hide RowsOk;
    hide LinksOk;
    hide HeldOk;
    hide NumberedOk;
    hide MembersOk;
    hide ReadyOk;
    hide KeysOk;
    hide CatalogOk;
    hide SessionsOk;
    hide StaleOk;
    hide ClockOk;
    hide CapacityOk;
    hide Evolves;
    hide ClosesOk;
    EvolvesReflexive(db);
    if AcceptResult(db, e, now).db != db {
      ResultCloses(db, e, now);
      ClosedKeeps(db, e.assignment, RowAfterResult(db.assignments[e.assignment], e, now), e.lease,
                  db.leases[e.lease].(state := LeaseSucceeded), now);
    }
  }

  lemma FailureRow(a: Assignment, retry: Retry, e: FailureEnvelope, now: Time)
    requires RowOk(a) && a.current == Some(e.lease) && a.createdAt <= now && RetryOk(retry)
    ensures var b := RowAfterFailure(a, a.cancellation.Some?, retry, e, now);
            QuietRow(a, b) && b.current.None? && b.accepted.None?
  {
    hide QuietRow;
    if a.cancellation.Some? {
      AbandonRow(a, now, Some(e.lease), Some(OfFailure(e)));
    } else {
      RetryRow(a, retry, now, e.retryable, e.lease, Some(OfFailure(e)));
    }
  }

  lemma LinkOfFailed(id: Id, l: Lease, a: Assignment, b: Assignment, record: FailureRecord)
    requires RowOk(a) && LinkOk(id, l, a) && QuietRow(a, b) && a.current == Some(id) && b.current.None? && b.accepted.None?
    requires record.digest.lease == id && record.digest.assignment == l.assignment
    ensures LinkOk(id, l.(state := LeaseFailed, failure := Some(record)), b)
  {
  }

  lemma FailureCloses(db: Tables, retry: Retry, e: FailureEnvelope, now: Time)
    requires RowsOk(db) && LinksOk(db) && HeldOk(db) && ClockOk(db, now) && RetryOk(retry)
    requires ActiveError(db, e.assignment, e.attempt, e.lease, e.worker, e.session, now).None?
    ensures var row := RowAfterFailure(db.assignments[e.assignment], !db.leases[e.lease].notice.NotCancelled?, retry, e, now);
            ClosesOk(db.assignments[e.assignment], row, e.lease, db.leases[e.lease],
                     db.leases[e.lease].(state := LeaseFailed, failure := Some(FailureRecord(e, Terminal(row)))))
  {
    hide RowAfterFailure;
    hide QuietRow;
    hide LinkOk;
    HeldLease(db, e.assignment);
    var a := db.assignments[e.assignment];
    FailureRow(a, retry, e, now);
    var row := RowAfterFailure(a, !db.leases[e.lease].notice.NotCancelled?, retry, e, now);
    LinkOfFailed(e.lease, db.leases[e.lease], a, row, FailureRecord(e, Terminal(row)));
  }

  lemma AcceptFailureKeeps(db: Tables, retry: Retry, e: FailureEnvelope, now: Time)
    requires Invariant(db, now) && RetryOk(retry)
    ensures Invariant(AcceptFailure(db, retry, e, now).db, now) && Evolves(db, AcceptFailure(db, retry, e, now).db)
  {
    hide RowsOk;
    hide LinksOk;
    hide HeldOk;
    hide NumberedOk;
    hide MembersOk;
    hide ReadyOk;
    hide KeysOk;
    hide CatalogOk;
    hide SessionsOk;
    hide StaleOk;
    hide ClockOk;
    hide CapacityOk;
    hide Evolves;
    hide ClosesOk;
    hide RowAfterFailure;
    EvolvesReflexive(db);
    if AcceptFailure(db, retry, e, now).db != db {
      FailureCloses(db, retry, e, now);
      var row := RowAfterFailure(db.assignments[e.assignment], !db.leases[e.lease].notice.NotCancelled?, retry, e, now);
      ClosedKeeps(db, e.assignment, row, e.lease,
                  db.leases[e.lease].(state := LeaseFailed, failure := Some(FailureRecord(e, Terminal(row)))), now);
    }
  }

  // ---------------------------------------------------------------- policies, settings, sessions, requests

  ghost predicate SameWork(db: Tables, to: Tables) {
    to.assignments == db.assignments && to.leases == db.leases && to.groups == db.groups
  }

  lemma WorkKept(db: Tables, to: Tables)
    requires SameWork(db, to) && RowsOk(db) && LinksOk(db) && HeldOk(db)
    ensures RowsOk(to) && LinksOk(to) && HeldOk(to)
    ensures RowsEvolve(db, to) && LeasesEvolve(db, to)
  {
    hide RowOk;
    hide LinkOk;
  }

  lemma GroupsKept(db: Tables, to: Tables)
    requires SameWork(db, to) && NumberedOk(db) && MembersOk(db) && ReadyOk(db)
    ensures NumberedOk(to) && MembersOk(to) && ReadyOk(to)
  {
    hide Settled;
    SameAsBefore(db, to);
    NumberedKept(db, to);
    MembersKept(db, to);
  }

  lemma SameAsBefore(db: Tables, to: Tables)
    requires SameWork(db, to)
    ensures SameRows(db, to) && SameLeases(db, to) && SameGroups(db, to)
  {
  }

  lemma SlotsKept(db: Tables, to: Tables, now: Time)
    requires SameWork(db, to) && CapacityOk(db, now) && ClockOk(db, now) && SessionsOk(db) && OthersEvolve(db, to)
    ensures CapacityOk(to, now) && ClockOk(to, now)
  {
    forall s | s in to.sessions ensures |Live(to, s, now)| <= to.sessions[s].capabilities.slots {
      assert Live(to, s, now) == Live(db, s, now);
      if s in db.sessions {
        assert SessionEvolves(db.sessions[s], to.sessions[s]);
      } else {
        assert Live(db, s, now) == {};
      }
    }
  }

  lemma KeysCarry(db: Tables, to: Tables)
    requires SameWork(db, to) && KeysOk(db) && OthersEvolve(db, to) && db.settings.nextSequence <= to.settings.nextSequence
    ensures KeysOk(to)
  {
    hide GroupEvolves;
    hide RequestEvolves;
    hide SessionEvolves;
    hide Version;
    forall g | g in to.groups
      ensures to.groups[g].policy in to.policies && to.groups[g].key.source in to.sources
      ensures to.groups[g].key.cursor < to.sources[to.groups[g].key.source].cursor
    {
      assert SourceEvolves(db.sources[db.groups[g].key.source], to.sources[db.groups[g].key.source]);
    }
  }

  /** Request `r` comes from an earlier row without a new grant, or is new and of a known session. */
  predicate Carried(requests: map<Id, Request>, sessions: map<Id, Session>, r: Id, to: Request) {
    if r in requests then to.session == requests[r].session && (to.disposition.Granted? ==> to == requests[r])
    else to.session in sessions && !to.disposition.Granted?
  }

  /** No request is newly granted a lease. */
  ghost predicate NoNewGrant(db: Tables, to: Tables) {
    forall r :: r in to.requests ==> Carried(db.requests, to.sessions, r, to.requests[r])
  }

  lemma SessionsCarry(db: Tables, to: Tables)
    requires SameWork(db, to) && SessionsOk(db) && OthersEvolve(db, to) && NoNewGrant(db, to)
    ensures SessionsOk(to)
  {
    forall l | l in to.leases
      ensures to.leases[l].session in to.sessions && to.sessions[to.leases[l].session].worker == to.leases[l].worker
    {
      assert SessionEvolves(db.sessions[db.leases[l].session], to.sessions[db.leases[l].session]);
    }
  }

  /** What is left to show of a step that touches no assignment, lease or group. */
  lemma CatalogStepKeeps(db: Tables, to: Tables, now: Time)
    requires Sound(db) && CapacityOk(db, now) && ClockOk(db, now) && SameWork(db, to)
    requires OthersEvolve(db, to) && CatalogOk(to) && NoNewGrant(db, to) && db.settings.nextSequence <= to.settings.nextSequence
    ensures Sound(to) && CapacityOk(to, now) && ClockOk(to, now) && Evolves(db, to)
  {
    hide RowsOk;
    hide LinksOk;
    hide HeldOk;
    hide NumberedOk;
    hide MembersOk;
    hide ReadyOk;
    hide KeysOk;
    hide CatalogOk;
    hide SessionsOk;
    hide CapacityOk;
    hide ClockOk;
    hide RowsEvolve;
    hide LeasesEvolve;
    hide OthersEvolve;
    hide NoNewGrant;
    WorkKept(db, to);
    GroupsKept(db, to);
    KeysCarry(db, to);
    SessionsCarry(db, to);
    SlotsKept(db, to, now);
  }

  lemma AddedPolicy(db: Tables, policy: Policy)
    requires CatalogOk(db) && policy.manifest.policyId !in db.policies && policy.manifest.lineage == db.lineage
    requires !VersionTaken(db, policy.manifest.version)
    ensures CatalogOk(db.(policies := db.policies[policy.manifest.policyId := policy]))
  {
    hide SpecOk;
  }

  lemma RecordedCatalog(db: Tables, policy: Policy)
    requires CatalogOk(db)
    ensures var to := RecordPolicy(db, policy).db;
            && CatalogOk(to) && to == db.(policies := to.policies) && Version(to) == Version(db)
            && forall p :: p in db.policies ==> p in to.policies && to.policies[p] == db.policies[p]
  {
    assert db.active in db.policies;
    hide CatalogOk;
    hide VersionTaken;
    if RecordPolicy(db, policy).db != db { AddedPolicy(db, policy); }
  }

  /** Staleness looks only at the groups' own policies and the active version. */
  lemma StaleSame(db: Tables, to: Tables)
    requires SameWork(db, to) && StaleOk(db) && KeysOk(db) && PlacedOk(db)
    requires Version(to) == Version(db) && to.settings.maxLag == db.settings.maxLag
    requires forall p :: p in db.policies ==> p in to.policies && to.policies[p] == db.policies[p]
    ensures StaleOk(to)
  {
    hide Version;
    if to.settings.maxLag.Some? {
      forall g | StaleGroup(to, to.settings.maxLag.value, g) ensures StaleGroup(db, to.settings.maxLag.value, g) {
      }
    }
  }

  lemma OthersWithout(db: Tables, to: Tables)
    requires SameWork(db, to) && db.lineage == to.lineage && Version(db) <= Version(to)
    requires forall p :: p in db.policies ==> p in to.policies && to.policies[p] == db.policies[p]
    requires forall s :: s in db.sources ==> s in to.sources && to.sources[s] == db.sources[s]
    requires forall s :: s in db.sessions ==> s in to.sessions && SessionEvolves(db.sessions[s], to.sessions[s])
    requires forall r :: r in db.requests ==> r in to.requests && RequestEvolves(db.requests[r], to.requests[r])
    ensures OthersEvolve(db, to)
  {
    hide Version;
    hide SessionEvolves;
    hide RequestEvolves;
    hide Carried;
  }

  lemma RecordPolicyKeeps(db: Tables, policy: Policy, now: Time)
    requires Invariant(db, now)
    ensures Invariant(RecordPolicy(db, policy).db, now) && Evolves(db, RecordPolicy(db, policy).db)
  {
    hide RowsOk;
    hide LinksOk;
    hide HeldOk;
    hide NumberedOk;
    hide DistinctOk;
    hide CountedOk;
    hide PlacedOk;
    hide ReadyOk;
    hide KeysOk;
    hide CatalogOk;
    hide SessionsOk;
    hide StaleOk;
    hide CapacityOk;
    hide ClockOk;
    hide Evolves;
    hide OthersEvolve;
    hide Version;
    hide RecordPolicy;
    var to := RecordPolicy(db, policy).db;
    RecordedCatalog(db, policy);
    OthersWithout(db, to);
    StaleSame(db, to);
    CatalogStepKeeps(db, to, now);
  }

  lemma ActivatedSound(db: Tables, id: Id, now: Time)
    requires Sound(db) && CapacityOk(db, now) && ClockOk(db, now)
    requires id in db.policies && Version(db) <= db.policies[id].manifest.version
    ensures var to := db.(active := id); Sound(to) && CapacityOk(to, now) && ClockOk(to, now) && Evolves(db, to)
  {
    var to := db.(active := id);
    assert Version(to) == db.policies[id].manifest.version;
    hide RowsOk;
    hide LinksOk;
    hide HeldOk;
    hide NumberedOk;
    hide DistinctOk;
    hide CountedOk;
    hide PlacedOk;
    hide ReadyOk;
    hide KeysOk;
    hide SessionsOk;
    hide StaleOk;
    hide CapacityOk;
    hide ClockOk;
    hide Evolves;
    hide OthersEvolve;
    hide Version;
    hide SpecOk;
    OthersWithout(db, to);
    CatalogStepKeeps(db, to, now);
  }

  lemma ActivatePolicyKeeps(db: Tables, id: Id, now: Time)
    requires Invariant(db, now)
    ensures Invariant(ActivatePolicy(db, id, now).db, now) && Evolves(db, ActivatePolicy(db, id, now).db)
  {
    hide Reconciled;
    hide Sound;
    hide StaleOk;
    hide CapacityOk;
    hide ClockOk;
    hide Evolves;
    hide Version;
    EvolvesReflexive(db);
    if ActivatePolicy(db, id, now).result.Success? {
      var to := db.(active := id);
      ActivatedSound(db, id, now);
      ReconciledKeeps(to, now);
      EvolvesTransitive(db, to, Reconciled(to, now));
    }
  }

  lemma RecordAndActivateKeeps(db: Tables, policy: Policy, now: Time)
    requires Invariant(db, now)
    ensures Invariant(RecordAndActivatePolicy(db, policy, now).db, now)
    ensures Evolves(db, RecordAndActivatePolicy(db, policy, now).db)
  {
    hide RecordPolicy;
    hide ActivatePolicy;
    hide Invariant;
    hide Evolves;
    var recorded := RecordPolicy(db, policy).db;
    RecordPolicyKeeps(db, policy, now);
    ActivatePolicyKeeps(recorded, policy.manifest.policyId, now);
    EvolvesTransitive(db, recorded, ActivatePolicy(recorded, policy.manifest.policyId, now).db);
    EvolvesReflexive(db);
  }

  lemma ConfiguredSound(db: Tables, settings: Settings, now: Time)
    requires Sound(db) && CapacityOk(db, now) && ClockOk(db, now) && settings.nextSequence == db.settings.nextSequence
    ensures var to := db.(settings := settings); Sound(to) && CapacityOk(to, now) && ClockOk(to, now) && Evolves(db, to)
  {
    var to := db.(settings := settings);
    assert Version(to) == Version(db);
    hide RowsOk;
    hide LinksOk;
    hide HeldOk;
    hide NumberedOk;
    hide DistinctOk;
    hide CountedOk;
    hide PlacedOk;
    hide ReadyOk;
    hide KeysOk;
    hide SessionsOk;
    hide StaleOk;
    hide CapacityOk;
    hide ClockOk;
    hide Evolves;
    hide OthersEvolve;
    hide Version;
    hide SpecOk;
    OthersWithout(db, to);
    CatalogStepKeeps(db, to, now);
  }

  lemma ConfigureSchedulerKeeps(db: Tables, lag: int, preference: real, now: Time)
    requires Invariant(db, now)
    ensures Invariant(ConfigureScheduler(db, lag, preference, now).db, now)
    ensures Evolves(db, ConfigureScheduler(db, lag, preference, now).db)
  {
    hide Reconciled;
    hide Sound;
    hide StaleOk;
    hide CapacityOk;
    hide ClockOk;
    hide Evolves;
    EvolvesReflexive(db);
    if ConfigureScheduler(db, lag, preference, now).result.Success? {
      var settings := db.settings.(maxLag := Some(lag), preference := Some(preference));
      var to := db.(settings := settings);
      ConfiguredSound(db, settings, now);
      ReconciledKeeps(to, now);
      EvolvesTransitive(db, to, Reconciled(to, now));
    }
  }

  /** The step touches only sessions and requests, and grants nothing. */
  ghost predicate OnlySessions(db: Tables, to: Tables) {
    && to == db.(sessions := to.sessions, requests := to.requests)
    && (forall s :: s in db.sessions ==> s in to.sessions && SessionEvolves(db.sessions[s], to.sessions[s]))
    && (forall r :: r in db.requests ==> r in to.requests && RequestEvolves(db.requests[r], to.requests[r]))
    && NoNewGrant(db, to)
  }

  lemma SessionsStep(db: Tables, to: Tables, now: Time)
    requires Invariant(db, now) && OnlySessions(db, to)
    ensures Invariant(to, now) && Evolves(db, to)
  {
    assert Version(to) == Version(db);
    hide RowsOk;
    hide LinksOk;
    hide HeldOk;
    hide NumberedOk;
    hide DistinctOk;
    hide CountedOk;
    hide PlacedOk;
    hide ReadyOk;
    hide KeysOk;
    hide SessionsOk;
    hide StaleOk;
    hide CapacityOk;
    hide ClockOk;
    hide Evolves;
    hide OthersEvolve;
    hide Version;
    hide SpecOk;
    hide SessionEvolves;
    hide RequestEvolves;
    hide NoNewGrant;
    OthersWithout(db, to);
    StaleSame(db, to);
    CatalogStepKeeps(db, to, now);
  }

  lemma SessionUpdated(m: map<Id, Session>, s: Id, v: Session)
    requires s in m ==> SessionEvolves(m[s], v)
    ensures forall k :: k in m ==> k in m[s := v] && SessionEvolves(m[k], m[s := v][k])
  {
  }

  lemma RequestUpdated(m: map<Id, Request>, sessions: map<Id, Session>, r: Id, w: Request, to: map<Id, Request>)
    requires (if r in m then RequestEvolves(m[r], w) else w.session in sessions) && !w.disposition.Granted?
    requires to == m[r := w]
    ensures forall k :: k in m ==> k in to && RequestEvolves(m[k], to[k])
    ensures forall k :: k in to ==> Carried(m, sessions, k, to[k])
  {
  }

  lemma SessionsSame(m: map<Id, Session>)
    ensures forall k :: k in m ==> SessionEvolves(m[k], m[k])
  {
  }

  lemma RequestsSame(m: map<Id, Request>, sessions: map<Id, Session>)
    ensures forall k :: k in m ==> RequestEvolves(m[k], m[k]) && Carried(m, sessions, k, m[k])
  {
  }

  lemma RegisterOnlySessions(db: Tables, session: Id, worker: Id, capabilities: Capabilities)
    ensures OnlySessions(db, RegisterWorker(db, session, worker, capabilities).db)
  {
    var to := RegisterWorker(db, session, worker, capabilities).db;
    if session !in db.sessions { SessionUpdated(db.sessions, session, Session(worker, capabilities, None, None)); }
    SessionsSame(db.sessions);
    RequestsSame(db.requests, to.sessions);
    hide SessionEvolves;
    hide RequestEvolves;
    hide Carried;
  }

  lemma ValidateOnlySessions(db: Tables, q: LeaseRequest, now: Time)
    ensures OnlySessions(db, ValidateLeaseRequest(db, q, now).db)
  {
    var to := ValidateLeaseRequest(db, q, now).db;
    hide Live;
    if to.requests != db.requests { RequestUpdated(db.requests, to.sessions, q.id, Request(q.session, q, Undecided), to.requests); }
    if q.session in db.sessions {
      SessionUpdated(db.sessions, q.session, db.sessions[q.session].(lastRequest := Some(q.sentAt)));
    }
    SessionsSame(db.sessions);
    RequestsSame(db.requests, to.sessions);
    hide SessionEvolves;
    hide RequestEvolves;
    hide Carried;
  }

  lemma NoWorkOnlySessions(db: Tables, id: Id)
    ensures OnlySessions(db, MarkNoWork(db, id).db)
  {
    var to := MarkNoWork(db, id).db;
    if id in db.requests && db.requests[id].disposition.Undecided? {
      RequestUpdated(db.requests, to.sessions, id, db.requests[id].(disposition := NoWork), to.requests);
    }
    SessionsSame(db.sessions);
    RequestsSame(db.requests, to.sessions);
    hide SessionEvolves;
    hide RequestEvolves;
    hide Carried;
  }

  lemma RegisterWorkerKeeps(db: Tables, session: Id, worker: Id, capabilities: Capabilities, now: Time)
    requires Invariant(db, now)
    ensures Invariant(RegisterWorker(db, session, worker, capabilities).db, now)
    ensures Evolves(db, RegisterWorker(db, session, worker, capabilities).db)
  {
    hide Invariant;
    hide Evolves;
    RegisterOnlySessions(db, session, worker, capabilities);
    hide OnlySessions;
    hide RegisterWorker;
    SessionsStep(db, RegisterWorker(db, session, worker, capabilities).db, now);
  }

  lemma ValidateLeaseRequestKeeps(db: Tables, q: LeaseRequest, now: Time)
    requires Invariant(db, now)
    ensures Invariant(ValidateLeaseRequest(db, q, now).db, now) && Evolves(db, ValidateLeaseRequest(db, q, now).db)
  {
    hide Invariant;
    hide Evolves;
    hide OnlySessions;
    hide ValidateLeaseRequest;
    ValidateOnlySessions(db, q, now);
    SessionsStep(db, ValidateLeaseRequest(db, q, now).db, now);
  }

  lemma MarkNoWorkKeeps(db: Tables, id: Id, now: Time)
    requires Invariant(db, now)
    ensures Invariant(MarkNoWork(db, id).db, now) && Evolves(db, MarkNoWork(db, id).db)
  {
    hide Invariant;
    hide Evolves;
    hide OnlySessions;
    hide MarkNoWork;
    NoWorkOnlySessions(db, id);
    SessionsStep(db, MarkNoWork(db, id).db, now);
  }

  lemma RegisteredCatalog(db: Tables, id: Id, spec: SourceSpec)
    requires CatalogOk(db) && SpecOk(spec)
    ensures var to := RegisterSource(db, id, spec).db;
            && CatalogOk(to) && to == db.(sources := to.sources) && Version(to) == Version(db)
            && forall s :: s in db.sources ==> s in to.sources && to.sources[s] == db.sources[s]
  {
    hide SpecOk;
    hide LeastFinish;
  }

  lemma RegisterSourceKeeps(db: Tables, id: Id, spec: SourceSpec, now: Time)
    requires Invariant(db, now) && SpecOk(spec)
    ensures Invariant(RegisterSource(db, id, spec).db, now) && Evolves(db, RegisterSource(db, id, spec).db)
  {
    var to := RegisterSource(db, id, spec).db;
    RegisteredCatalog(db, id, spec);
    hide RowsOk;
    hide LinksOk;
    hide HeldOk;
    hide NumberedOk;
    hide DistinctOk;
    hide CountedOk;
    hide PlacedOk;
    hide ReadyOk;
    hide KeysOk;
    hide SessionsOk;
    hide StaleOk;
    hide CapacityOk;
    hide ClockOk;
    hide Evolves;
    hide OthersEvolve;
    hide Version;
    hide SpecOk;
    hide RegisterSource;
    hide CatalogOk;
    OthersWithout(db, to);
    StaleSame(db, to);
    CatalogStepKeeps(db, to, now);
  }

  // ---------------------------------------------------------------- what a heartbeat is told

  /** Every renewal is of a named, live, uncancelled lease and names its new expiry. */
  predicate RenewalsOk(d: Tables, ids: seq<Id>, now: Time, duration: real, renewals: seq<Renewal>) {
    forall i :: 0 <= i < |renewals| ==>
      && renewals[i].lease in ids && Renewed(d, renewals[i].lease, now)
      && renewals[i].assignment == d.leases[renewals[i].lease].assignment
      && renewals[i].expiresAt == LeaseAfterBeat(d, ids, now, duration, renewals[i].lease).expiresAt
  }

  /** Every stop is of a named lease that is not renewed. */
  predicate StopsOk(d: Tables, ids: seq<Id>, now: Time, stops: seq<Id>) {
    forall i :: 0 <= i < |stops| ==> stops[i] in ids && !Renewed(d, stops[i], now)
  }

  ghost predicate RenewalFor(renewals: seq<Renewal>, l: Id) {
    exists i :: 0 <= i < |renewals| && renewals[i].lease == l
  }

  lemma {:induction false} RenewedAnswered(d: Tables, ids: seq<Id>, now: Time, duration: real)
    ensures forall l :: l in ids && Renewed(d, l, now) ==> RenewalFor(Answer(d, ids, now, duration).renewals, l)
  {
    hide Renewed;
    if ids != [] {
      var rest, last := ids[..|ids| - 1], ids[|ids| - 1];
      RenewedAnswered(d, rest, now, duration);
      assert ids == rest + [last];
      var before, after := Answer(d, rest, now, duration).renewals, Answer(d, ids, now, duration).renewals;
      assert before <= after;
      forall l | l in ids && Renewed(d, l, now) ensures RenewalFor(after, l) {
        if l == last {
          assert after[|before|].lease == l;
        } else {
          var i :| 0 <= i < |before| && before[i].lease == l;
          assert after[i].lease == l;
        }
      }
    }
  }

  /** Each named lease is answered: a live one without a cancellation by a renewal, any other by a stop. */
  lemma {:induction false} AnswerExact(d: Tables, ids: seq<Id>, now: Time, duration: real, all: seq<Id>)
    requires forall l :: l in ids ==> l in all
    ensures var answer := Answer(d, ids, now, duration);
            && |answer.renewals| + |answer.stops| == |ids|
            && RenewalsOk(d, all, now, duration, answer.renewals) && StopsOk(d, all, now, answer.stops)
            && (forall l :: l in ids && Renewed(d, l, now) ==> RenewalFor(answer.renewals, l))
            && (forall l :: l in ids && !Renewed(d, l, now) ==> l in answer.stops)
  {
    if ids != [] {
      var rest, l := ids[..|ids| - 1], ids[|ids| - 1];
      AnswerExact(d, rest, now, duration, all);
      assert ids == rest + [l];
    }
    RenewedAnswered(d, ids, now, duration);
    hide RenewalFor;
  }

  /** A named lease under cancellation is told so; a renewed one ends no earlier than before, after `now`, by the deadline. */
  lemma BeatExact(d: Tables, ids: seq<Id>, now: Time, duration: real, l: Id)
    requires RowsOk(d) && LinksOk(d) && l in ids && l in d.leases && duration > 0.0
    ensures var lease, to := d.leases[l], LeaseAfterBeat(d, ids, now, duration, l);
            var deadline := d.assignments[lease.assignment].deadline;
            && (!lease.notice.NotCancelled? ==> to.notice.Delivered? && to.expiresAt == lease.expiresAt && l in Answer(d, ids, now, duration).stops)
            && (Renewed(d, l, now) ==> lease.expiresAt <= to.expiresAt && now < to.expiresAt
                                       && (deadline.Some? ==> to.expiresAt <= deadline.value))
            && (!Renewed(d, l, now) && lease.notice.NotCancelled? ==> to == lease)
  {
    AnswerExact(d, ids, now, duration, ids);
    hide Answer;
    assert LinkOk(l, d.leases[l], d.assignments[d.leases[l].assignment]);
    assert RowOk(d.assignments[d.leases[l].assignment]);
    hide LinksOk;
    hide RowsOk;
  }
}
