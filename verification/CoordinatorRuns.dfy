/** What holds over every run of coordinator transactions under a nondecreasing clock. */
module CoordinatorRuns {
  import opened Wrappers
  import opened CoordinatorTables
  import opened CoordinatorOperations
  import opened CoordinatorInvariants
  import opened CoordinatorExpiry
  import opened CoordinatorSteps
  import opened CoordinatorGrowth

  datatype Event =
    | RecordEvent(policy: Policy)
    | ActivateEvent(id: Id)
    | RecordAndActivateEvent(policy: Policy)
    | ConfigureEvent(lag: int, preference: real)
    | RegisterEvent(session: Id, worker: Id, capabilities: Capabilities)
    | HeartbeatEvent(heartbeat: Heartbeat, duration: real)
    | RenewEvent(renew: Renew, duration: real)
    | RequestEvent(request: LeaseRequest)
    | NoWorkEvent(id: Id)
    | LeaseEvent(request: LeaseRequest, duration: real, lease: Id)
    | ExpireEvent
    | ResultEvent(result: ResultEnvelope)
    | FailureEvent(failure: FailureEnvelope)
    | SourceEvent(id: Id, spec: SourceSpec)
    | GroupEvent(kind: Option<Kind>, ids: nat -> Id)

  datatype Timed = Timed(event: Event, now: Time)

  /** The transaction of `e` takes `db` to `to`. Source specifications are validated before they get here. */
  ghost predicate Step(db: Tables, to: Tables, retry: Retry, e: Event, now: Time) {
    match e
    case RecordEvent(policy) => to == RecordPolicy(db, policy).db
    case ActivateEvent(id) => to == ActivatePolicy(db, id, now).db
    case RecordAndActivateEvent(policy) => to == RecordAndActivatePolicy(db, policy, now).db
    case ConfigureEvent(lag, preference) => to == ConfigureScheduler(db, lag, preference, now).db
    case RegisterEvent(session, worker, capabilities) => to == RegisterWorker(db, session, worker, capabilities).db
    case HeartbeatEvent(heartbeat, duration) => to == RecordHeartbeat(db, heartbeat, duration, now).db
    case RenewEvent(renew, duration) => to == RenewLease(db, renew, duration, now).db
    case RequestEvent(request) => to == ValidateLeaseRequest(db, request, now).db
    case NoWorkEvent(id) => to == MarkNoWork(db, id).db
    case LeaseEvent(request, duration, lease) => to == LeaseNext(db, request, retry, duration, lease, now).db
    case ExpireEvent => to == ExpireLeases(db, retry, now)
    case ResultEvent(result) => to == AcceptResult(db, result, now).db
    case FailureEvent(failure) => to == AcceptFailure(db, retry, failure, now).db
    case SourceEvent(id, spec) => SpecOk(spec) && to == RegisterSource(db, id, spec).db
    case GroupEvent(kind, ids) =>
      (forall s :: s in db.sources ==> SpecOk(db.sources[s].spec)) && to == CreateNextGroup(db, kind, ids, now).db
  }

  lemma StepKeeps(db: Tables, to: Tables, retry: Retry, e: Event, now: Time)
    requires Invariant(db, now) && RetryOk(retry) && Step(db, to, retry, e, now)
    ensures Invariant(to, now) && Evolves(db, to)
  {
    hide Invariant;
    hide Evolves;
    hide RecordPolicy;
    hide ActivatePolicy;
    hide RecordAndActivatePolicy;
    hide ConfigureScheduler;
    hide RegisterWorker;
    hide RecordHeartbeat;
    hide RenewLease;
    hide ValidateLeaseRequest;
    hide MarkNoWork;
    hide LeaseNext;
    hide ExpireLeases;
    hide AcceptResult;
    hide AcceptFailure;
    hide RegisterSource;
    hide CreateNextGroup;
    hide SpecOk;
    match e
    case RecordEvent(policy) => RecordPolicyKeeps(db, policy, now);
    case ActivateEvent(id) => ActivatePolicyKeeps(db, id, now);
    case RecordAndActivateEvent(policy) => RecordAndActivateKeeps(db, policy, now);
    case ConfigureEvent(lag, preference) => ConfigureSchedulerKeeps(db, lag, preference, now);
    case RegisterEvent(session, worker, capabilities) => RegisterWorkerKeeps(db, session, worker, capabilities, now);
    case HeartbeatEvent(heartbeat, duration) => RecordHeartbeatKeeps(db, heartbeat, duration, now);
    case RenewEvent(renew, duration) => RenewLeaseKeeps(db, renew, duration, now);
    case RequestEvent(request) => ValidateLeaseRequestKeeps(db, request, now);
    case NoWorkEvent(id) => MarkNoWorkKeeps(db, id, now);
    case LeaseEvent(request, duration, lease) => LeaseNextKeeps(db, request, retry, duration, lease, now);
    case ExpireEvent => ExpireLeasesKeeps(db, retry, now);
    case ResultEvent(result) => AcceptResultKeeps(db, result, now);
    case FailureEvent(failure) => AcceptFailureKeeps(db, retry, failure, now);
    case SourceEvent(id, spec) => RegisterSourceKeeps(db, id, spec, now);
    case GroupEvent(kind, ids) => CreateNextGroupKeeps(db, kind, ids, now);
  }

  /** The tables right after `initialize_run`. */
  function Initialized(base: Policy): Tables {
    Tables(base.manifest.lineage, map[base.manifest.policyId := base], base.manifest.policyId, Settings(None, None, 1),
           map[], map[], map[], map[], map[], map[])
  }

  lemma InitializedInvariant(base: Policy, now: Time)
    ensures Invariant(Initialized(base), now)
  {
    forall s ensures Live(Initialized(base), s, now) == {} {
    }
  }

  /** `states[i + 1]` is what event `i` makes of `states[i]`; the clock never runs backwards. */
  ghost predicate IsRun(states: seq<Tables>, events: seq<Timed>, retry: Retry) {
    && |states| == |events| + 1 && RetryOk(retry)
    && (forall i :: 0 <= i < |events| ==> Step(states[i], states[i + 1], retry, events[i].event, events[i].now))
    && (forall i, j :: 0 <= i < j < |events| ==> events[i].now <= events[j].now)
  }

  /** The run starts, no later than its first event, from an initialized database. */
  ghost predicate StartsAt(states: seq<Tables>, events: seq<Timed>, start: Time) {
    |states| > 0 && (exists base :: states[0] == Initialized(base)) && (events != [] ==> start <= events[0].now)
  }

  function TimeAt(events: seq<Timed>, start: Time, i: nat): Time
    requires i <= |events|
  {
    if i == 0 then start else events[i - 1].now
  }

  /** Every state of a run satisfies the invariant at its time. */
  lemma {:induction false} RunKeeps(states: seq<Tables>, events: seq<Timed>, retry: Retry, start: Time, i: nat)
    requires IsRun(states, events, retry) && StartsAt(states, events, start) && i <= |events|
    ensures Invariant(states[i], TimeAt(events, start, i))
    decreases i
  {
    hide Step;
    hide Invariant;
    if i == 0 {
      var base :| states[0] == Initialized(base);
      InitializedInvariant(base, start);
    } else {
      RunKeeps(states, events, retry, start, i - 1);
      var now := events[i - 1].now;
      ClockAdvances(states[i - 1], TimeAt(events, start, i - 1), now);
      StepKeeps(states[i - 1], states[i], retry, events[i - 1].event, now);
    }
  }

  /** Every later state of a run evolves from every earlier one. */
  lemma {:induction false} RunEvolves(states: seq<Tables>, events: seq<Timed>, retry: Retry, start: Time, i: nat, j: nat)
    requires IsRun(states, events, retry) && StartsAt(states, events, start) && i <= j <= |events|
    ensures Evolves(states[i], states[j])
    decreases j - i
  {
    hide Step;
    hide Invariant;
    hide Evolves;
    if i == j {
      EvolvesReflexive(states[i]);
    } else {
      RunEvolves(states, events, retry, start, i, j - 1);
      RunKeeps(states, events, retry, start, j - 1);
      ClockAdvances(states[j - 1], TimeAt(events, start, j - 1), events[j - 1].now);
      StepKeeps(states[j - 1], states[j], retry, events[j - 1].event, events[j - 1].now);
      EvolvesTransitive(states[i], states[j - 1], states[j]);
    }
  }

  // ---------------------------------------------------------------- leases, outcomes, groups

  function ActiveLeases(db: Tables, a: Id): set<Id> {
    set l | l in db.leases && db.leases[l].assignment == a && db.leases[l].state.Active?
  }

  /** Leased means exactly one active lease, the current one; a result is accepted exactly when succeeded. */
  lemma LeaseStates(db: Tables, now: Time, a: Id)
    requires Invariant(db, now) && a in db.assignments
    ensures var row := db.assignments[a];
            && ActiveLeases(db, a) == (if row.current.Some? then {row.current.value} else {})
            && (row.state.Leased? <==> ActiveLeases(db, a) != {})
            && (Terminal(row) <==> row.outcome.Some?)
            && (row.state.Succeeded? <==> row.accepted.Some?)
  {
    hide NumberedOk;
    hide MembersOk;
    hide ReadyOk;
    hide KeysOk;
    hide CatalogOk;
    hide SessionsOk;
    hide CapacityOk;
    hide ClockOk;
    hide StaleOk;
    var row := db.assignments[a];
    if row.current.Some? { HeldLease(db, a); }
    forall l | l in ActiveLeases(db, a) ensures row.current == Some(l) {
      assert LinkOk(l, db.leases[l], row);
    }
  }

  /** A terminal assignment never changes again, so its outcome is recorded once and kept. */
  lemma OutcomeFinal(states: seq<Tables>, events: seq<Timed>, retry: Retry, start: Time, i: nat, j: nat, a: Id)
    requires IsRun(states, events, retry) && StartsAt(states, events, start) && i <= j <= |events|
    requires a in states[i].assignments && Terminal(states[i].assignments[a])
    ensures a in states[j].assignments && states[j].assignments[a] == states[i].assignments[a]
  {
    hide IsRun;
    hide StartsAt;
    RunEvolves(states, events, retry, start, i, j);
  }

  function Finished(db: Tables, g: Id): set<Id> {
    set a | a in db.assignments && db.assignments[a].group == g && db.assignments[a].outcome.Some?
  }

  /** A group is ready exactly when it has `size` outcomes, so the size check of `ready_groups` never fires. */
  lemma ReadyGroupsComplete(db: Tables, now: Time, g: Id)
    requires Invariant(db, now) && g in db.groups
    ensures db.groups[g].state.Ready? <==> |Finished(db, g)| == db.groups[g].size
  {
    hide LinksOk;
    hide HeldOk;
    hide NumberedOk;
    hide DistinctOk;
    hide PlacedOk;
    hide KeysOk;
    hide CatalogOk;
    hide SessionsOk;
    hide CapacityOk;
    hide ClockOk;
    hide StaleOk;
    var members, finished := Members(db.assignments, g), Finished(db, g);
    forall a | a in db.assignments ensures RowOk(db.assignments[a]) {
    }
    assert finished <= members;
    if Settled(db.assignments, g) {
      assert finished == members;
    } else {
      var a :| a in db.assignments && db.assignments[a].group == g && !Terminal(db.assignments[a]);
      assert a in members && a !in finished;
      Cardinality(finished, members - {a});
    }
  }

  /** Once ready, always ready. */
  lemma ReadyStays(states: seq<Tables>, events: seq<Timed>, retry: Retry, start: Time, i: nat, j: nat, g: Id)
    requires IsRun(states, events, retry) && StartsAt(states, events, start) && i <= j <= |events|
    requires g in states[i].groups && states[i].groups[g].state.Ready?
    ensures g in states[j].groups && states[j].groups[g] == states[i].groups[g]
  {
    hide IsRun;
    hide StartsAt;
    RunEvolves(states, events, retry, start, i, j);
  }

  // ---------------------------------------------------------------- attempts

  /** Attempts are numbered 1 to attempt_count, which never passes max_attempts. */
  lemma AttemptsNumbered(db: Tables, now: Time, a: Id, k: nat)
    requires Invariant(db, now) && a in db.assignments
    ensures db.assignments[a].attemptCount <= db.assignments[a].maxAttempts
    ensures 1 <= k <= db.assignments[a].attemptCount <==> HasAttempt(db, a, k)
  {
    if HasAttempt(db, a, k) {
      var l :| l in db.leases && db.leases[l].assignment == a && db.leases[l].attempt == k;
      assert LinkOk(l, db.leases[l], db.assignments[a]);
    }
  }

  predicate ChangesAt(db: Tables, to: Tables, a: Id) {
    a in db.assignments && a in to.assignments &&
    (db.assignments[a].state != to.assignments[a].state || db.assignments[a].attemptCount != to.assignments[a].attemptCount)
  }

  /** How many steps of the run change the state of assignment `a`. */
  function Changes(states: seq<Tables>, a: Id): nat {
    if |states| < 2 then 0 else (if ChangesAt(states[0], states[1], a) then 1 else 0) + Changes(states[1..], a)
  }

  predicate Chain(states: seq<Tables>, a: Id) {
    && (forall i :: 0 <= i < |states| && a in states[i].assignments ==> RowOk(states[i].assignments[a]))
    && (forall i :: 0 <= i < |states| - 1 && a in states[i].assignments ==>
          a in states[i + 1].assignments && RowEvolves(states[i].assignments[a], states[i + 1].assignments[a]))
  }

  lemma RankBound(a: Assignment)
    requires RowOk(a)
    ensures 0 <= Rank(a) <= 2 * a.maxAttempts
  {
  }

  lemma {:induction false} ChainChanges(states: seq<Tables>, a: Id)
    requires Chain(states, a) && states != [] && a in states[|states| - 1].assignments
    ensures Changes(states, a) <= 2 * states[|states| - 1].assignments[a].maxAttempts
    ensures a in states[0].assignments ==>
      && Changes(states, a) <= Rank(states[0].assignments[a])
      && states[0].assignments[a].maxAttempts == states[|states| - 1].assignments[a].maxAttempts
  {
    if |states| == 1 {
      RankBound(states[0].assignments[a]);
    } else {
      assert states[1..][|states| - 2] == states[|states| - 1];
      ChainChanges(states[1..], a);
      if a in states[0].assignments {
        assert RowEvolves(states[0].assignments[a], states[1].assignments[a]);
        RankBound(states[0].assignments[a]);
        RankBound(states[1].assignments[a]);
      }
    }
  }

  /** At most 2 * max_attempts steps of any run change the state of an assignment. */
  lemma ChangesBounded(states: seq<Tables>, events: seq<Timed>, retry: Retry, start: Time, a: Id)
    requires IsRun(states, events, retry) && StartsAt(states, events, start)
    requires a in states[|events|].assignments
    ensures Changes(states, a) <= 2 * states[|events|].assignments[a].maxAttempts
  {
    forall i: nat | i < |states| && a in states[i].assignments ensures RowOk(states[i].assignments[a]) {
      RunKeeps(states, events, retry, start, i);
    }
    forall i: nat | i < |states| - 1 && a in states[i].assignments
      ensures a in states[i + 1].assignments && RowEvolves(states[i].assignments[a], states[i + 1].assignments[a])
    {
      hide IsRun;
      hide StartsAt;
      assert |states| == |events| + 1;
      RunEvolves(states, events, retry, start, i, i + 1);
    }
    ChainChanges(states, a);
  }

  /** A committed lease always passes the checks of `AssignmentLease.validate_expiry`, and renewals never shorten it. */
  lemma LeaseTimes(states: seq<Tables>, events: seq<Timed>, retry: Retry, start: Time, i: nat, j: nat, l: Id)
    requires IsRun(states, events, retry) && StartsAt(states, events, start) && i <= j <= |events|
    requires l in states[i].leases
    ensures l in states[j].leases && states[j].leases[l].assignment in states[j].assignments
    ensures var lease := states[j].leases[l];
            var row := states[j].assignments[lease.assignment];
            && row.createdAt <= lease.issuedAt == states[i].leases[l].issuedAt < lease.expiresAt
            && states[i].leases[l].expiresAt <= lease.expiresAt
            && (row.deadline.Some? ==> lease.expiresAt <= row.deadline.value)
  {
    RunEvolves(states, events, retry, start, i, j);
    RunKeeps(states, events, retry, start, j);
    hide IsRun;
    hide StartsAt;
    assert LeaseEvolves(states[i].leases[l], states[j].leases[l]);
    assert LinkOk(l, states[j].leases[l], states[j].assignments[states[j].leases[l].assignment]);
  }

  /** At every state of a run a session's undelivered live leases, all its own worker's, fit its inference slots. */
  lemma SlotsRespected(states: seq<Tables>, events: seq<Timed>, retry: Retry, start: Time, i: nat, s: Id)
    requires IsRun(states, events, retry) && StartsAt(states, events, start) && i <= |events| && s in states[i].sessions
    ensures |Live(states[i], s, TimeAt(events, start, i))| <= states[i].sessions[s].capabilities.slots
    ensures forall l :: l in Live(states[i], s, TimeAt(events, start, i)) ==> states[i].leases[l].worker == states[i].sessions[s].worker
  {
    RunKeeps(states, events, retry, start, i);
    hide IsRun;
    hide StartsAt;
    hide Occupies;
  }

  // ---------------------------------------------------------------- staleness

  /** With a lag configured, waiting train work is within the lag and leased stale work has a cancelled lease. */
  lemma StaleWorkCancelled(db: Tables, now: Time, a: Id)
    requires Invariant(db, now) && db.settings.maxLag.Some? && a in db.assignments
    requires StaleGroup(db, db.settings.maxLag.value, db.assignments[a].group)
    ensures Terminal(db.assignments[a]) || (db.assignments[a].state.Leased? &&
              db.assignments[a].current.value in db.leases && !db.leases[db.assignments[a].current.value].notice.NotCancelled?)
  {
    var row := db.assignments[a];
    if row.state.Leased? {
      assert RowOk(row);
      HeldLease(db, a);
    }
  }

  /** A cancelled assignment is never seen waiting again. */
  lemma CancelledNeverWaits(states: seq<Tables>, events: seq<Timed>, retry: Retry, start: Time, i: nat, j: nat, l: Id)
    requires IsRun(states, events, retry) && StartsAt(states, events, start) && i <= j <= |events|
    requires l in states[i].leases && !states[i].leases[l].notice.NotCancelled?
    ensures states[i].leases[l].assignment in states[j].assignments
    ensures !Waiting(states[j].assignments[states[i].leases[l].assignment])
  {
    RunEvolves(states, events, retry, start, i, j);
    RunKeeps(states, events, retry, start, i);
    hide IsRun;
    hide StartsAt;
    var a := states[i].leases[l].assignment;
    assert LinkOk(l, states[i].leases[l], states[i].assignments[a]);
    assert RowOk(states[i].assignments[a]);
    assert RowEvolves(states[i].assignments[a], states[j].assignments[a]);
  }

  /** Whatever `lease_next_compatible` newly hands out is not stale, and its attempt is within the limit. */
  lemma LeasedWithinLag(db: Tables, q: LeaseRequest, retry: Retry, duration: real, leaseId: Id, now: Time)
    requires Invariant(db, now) && RetryOk(retry)
    requires LeaseNext(db, q, retry, duration, leaseId, now).result == Success(Some(leaseId)) && leaseId !in db.leases
    ensures var to := LeaseNext(db, q, retry, duration, leaseId, now).db;
            && leaseId in to.leases && to.leases[leaseId].assignment in to.assignments && db.settings.maxLag.Some?
            && !StaleGroup(to, db.settings.maxLag.value, to.assignments[to.leases[leaseId].assignment].group)
            && to.leases[leaseId].attempt <= to.assignments[to.leases[leaseId].assignment].maxAttempts
  {
    hide Invariant;
    hide LeaseNext;
    hide Expired;
    hide Cancelled;
    hide Evolves;
    NotGranted(db, now, q.id, leaseId);
    var to := LeaseNext(db, q, retry, duration, leaseId, now).db;
    LeaseNextKeeps(db, q, retry, duration, leaseId, now);
    LeaseNextIssues(db, q, retry, duration, leaseId, now);
    var a := to.leases[leaseId].assignment;
    LinkFacts(to, now, leaseId);
    RowFacts(to, now, a);
    NotStale(to, now, a);
  }

  lemma NotGranted(db: Tables, now: Time, r: Id, l: Id)
    requires Invariant(db, now) && l !in db.leases
    ensures !(r in db.requests && db.requests[r].disposition == Granted(l))
  {
  }

  lemma NotStale(db: Tables, now: Time, a: Id)
    requires Invariant(db, now) && db.settings.maxLag.Some? && a in db.assignments
    requires db.assignments[a].state.Leased? && db.assignments[a].cancellation.None?
    ensures !StaleGroup(db, db.settings.maxLag.value, db.assignments[a].group)
  {
  }

  lemma LeaseNextIssues(db: Tables, q: LeaseRequest, retry: Retry, duration: real, leaseId: Id, now: Time)
    requires LeaseNext(db, q, retry, duration, leaseId, now).result == Success(Some(leaseId))
    requires !(q.id in db.requests && db.requests[q.id].disposition == Granted(leaseId))
    ensures var to := LeaseNext(db, q, retry, duration, leaseId, now).db;
            && db.settings.maxLag.Some? && to.settings == db.settings && leaseId in to.leases
            && to.leases[leaseId].assignment in to.assignments && to.leases[leaseId].state.Active?
            && to.leases[leaseId].notice.NotCancelled? && to.assignments[to.leases[leaseId].assignment].state.Leased?
            && to.assignments[to.leases[leaseId].assignment].cancellation.None?
  {
    hide Expired;
    hide Cancelled;
    hide Live;
    if db.settings.maxLag.Some? {
      assert Cancelled(Expired(db, retry, now), db.settings.maxLag.value, now).settings == db.settings by { ReleasedSettings(db, retry, now); }
    }
  }

  lemma ReleasedSettings(db: Tables, retry: Retry, now: Time)
    requires db.settings.maxLag.Some?
    ensures Cancelled(Expired(db, retry, now), db.settings.maxLag.value, now).settings == db.settings
  {
  }
}
