/** What the version and the limit that a pass read are worth when its batch is committed. */
module LagWindows {
  import opened Wrappers
  import opened CoordinatorTables
  import opened CoordinatorOperations
  import opened CoordinatorInvariants
  import Coordinator = CoordinatorRuns
  import opened TrainingLedger
  import opened BatchEmission
  import opened LedgerRuns

  // ---------------------------------------------------------------- which transactions move the window

  /** The version an activation makes active, unless it is refused. */
  function Activated(db: Tables, e: Coordinator.Event): Option<nat> {
    match e
    case ActivateEvent(id) =>
      if id in db.policies && Version(db) <= db.policies[id].manifest.version then Some(db.policies[id].manifest.version) else None
    case RecordAndActivateEvent(policy) =>
      if RecordPolicy(db, policy).result.Success? && Version(db) <= policy.manifest.version then Some(policy.manifest.version) else None
    case _ => None
  }

  /** The limit a configuration sets, unless it is refused. */
  function Limited(e: Coordinator.Event): Option<nat> {
    match e
    case ConfigureEvent(lag, preference) => if lag >= 0 && preference >= 0.0 then Some(lag) else None
    case _ => None
  }

  ghost predicate SameWindow(db: Tables, to: Tables) {
    to.active == db.active && to.policies == db.policies && to.settings.maxLag == db.settings.maxLag
  }

  lemma ReleaseWindow(db: Tables, retry: Retry, lag: nat, now: Time)
    ensures SameWindow(db, Expired(db, retry, now)) && SameWindow(db, Cancelled(db, lag, now)) && SameWindow(db, Reconciled(db, now))
  {
  }

  lemma BeatWindow(db: Tables, h: Heartbeat, duration: real, now: Time)
    ensures SameWindow(db, RecordHeartbeat(db, h, duration, now).db)
  {
    hide Reconciled;
    hide Answer;
    hide LeaseAfterBeat;
    ReleaseWindow(db, Retry(1.0, 1.0), 0, now);
  }

  lemma RenewWindow(db: Tables, r: Renew, duration: real, now: Time)
    ensures SameWindow(db, RenewLease(db, r, duration, now).db)
  {
    hide Reconciled;
    hide ExtendedTo;
    ReleaseWindow(db, Retry(1.0, 1.0), 0, now);
  }

  lemma ExpireWindow(db: Tables, retry: Retry, now: Time)
    ensures SameWindow(db, ExpireLeases(db, retry, now))
  {
    hide Reconciled;
    hide Expired;
    ReleaseWindow(db, retry, 0, now);
    ReleaseWindow(Reconciled(db, now), retry, 0, now);
  }

  lemma LeaseWindow(db: Tables, q: LeaseRequest, retry: Retry, duration: real, leaseId: Id, now: Time)
    ensures SameWindow(db, LeaseNext(db, q, retry, duration, leaseId, now).db)
  {
    hide Live;
    hide Choice;
    hide Expired;
    hide Cancelled;
    if db.settings.maxLag.Some? {
      ReleaseWindow(db, retry, 0, now);
      ReleaseWindow(Expired(db, retry, now), retry, db.settings.maxLag.value, now);
    }
  }

  lemma EnvelopeWindow(db: Tables, retry: Retry, e: ResultEnvelope, f: FailureEnvelope, now: Time)
    ensures SameWindow(db, AcceptResult(db, e, now).db) && SameWindow(db, AcceptFailure(db, retry, f, now).db)
  {
    hide RowAfterResult;
    hide RowAfterFailure;
    hide Settled;
  }

  lemma GroupWindow(db: Tables, kind: Option<Kind>, ids: nat -> Id, now: Time)
    requires forall s :: s in db.sources ==> SpecOk(db.sources[s].spec)
    ensures SameWindow(db, CreateNextGroup(db, kind, ids, now).db)
  {
    hide SpecOk;
    hide NewRows;
    hide FreshIds;
  }

  lemma RegisterWindow(db: Tables, session: Id, worker: Id, capabilities: Capabilities)
    ensures SameWindow(db, RegisterWorker(db, session, worker, capabilities).db)
  {
  }

  lemma RequestWindow(db: Tables, q: LeaseRequest, now: Time)
    ensures SameWindow(db, ValidateLeaseRequest(db, q, now).db)
  {
    hide Live;
  }

  lemma NoWorkWindow(db: Tables, id: Id)
    ensures SameWindow(db, MarkNoWork(db, id).db)
  {
  }

  lemma SourceWindow(db: Tables, id: Id, spec: SourceSpec)
    ensures SameWindow(db, RegisterSource(db, id, spec).db)
  {
    hide LeastFinish;
  }

  predicate MovesWindow(e: Coordinator.Event) {
    e.RecordEvent? || e.ActivateEvent? || e.RecordAndActivateEvent? || e.ConfigureEvent?
  }

  lemma QuietWindow(db: Tables, to: Tables, retry: Retry, e: Coordinator.Event, now: Time)
    requires Coordinator.Step(db, to, retry, e, now) && !MovesWindow(e)
    ensures SameWindow(db, to)
  {
    hide SameWindow;
    hide RecordHeartbeat;
    hide RenewLease;
    hide LeaseNext;
    hide ExpireLeases;
    hide AcceptResult;
    hide AcceptFailure;
    hide CreateNextGroup;
    hide RegisterWorker;
    hide ValidateLeaseRequest;
    hide MarkNoWork;
    hide RegisterSource;
    hide SpecOk;
    var manifest := Manifest(0, 0, 0, None, 0);
    match e
    case HeartbeatEvent(h, duration) => BeatWindow(db, h, duration, now);
    case RenewEvent(r, duration) => RenewWindow(db, r, duration, now);
    case ExpireEvent => ExpireWindow(db, retry, now);
    case LeaseEvent(r, duration, lease) => LeaseWindow(db, r, retry, duration, lease, now);
    case ResultEvent(r) => EnvelopeWindow(db, retry, r, FailureEnvelope(0, 0, 0, 0, 0, false, 0), now);
    case FailureEvent(f) => EnvelopeWindow(db, retry, ResultEnvelope(0, 0, 0, 0, 0, 0, manifest, 0), f, now);
    case GroupEvent(kind, ids) => GroupWindow(db, kind, ids, now);
    case RegisterEvent(session, worker, capabilities) => RegisterWindow(db, session, worker, capabilities);
    case RequestEvent(q) => RequestWindow(db, q, now);
    case NoWorkEvent(id) => NoWorkWindow(db, id);
    case SourceEvent(id, spec) => SourceWindow(db, id, spec);
  }

  lemma RecordedVersion(db: Tables, policy: Policy)
    requires db.active in db.policies
    ensures var to := RecordPolicy(db, policy).db;
            && to.settings == db.settings && to.active == db.active && Version(to) == Version(db) && db.active in to.policies
            && (RecordPolicy(db, policy).result.Success? ==>
                  policy.manifest.policyId in to.policies && to.policies[policy.manifest.policyId] == policy)
  {
  }

  lemma ActivatedVersion(db: Tables, id: Id, now: Time)
    ensures var to := ActivatePolicy(db, id, now).db;
            && to.settings == db.settings
            && Version(to) == (if id in db.policies && Version(db) <= db.policies[id].manifest.version
                               then db.policies[id].manifest.version else Version(db))
  {
    hide Cancelled;
    if id in db.policies && db.settings.maxLag.Some? {
      CancelledSettings(db.(active := id), db.settings.maxLag.value, now);
    }
  }

  lemma CancelledSettings(db: Tables, lag: nat, now: Time)
    ensures Cancelled(db, lag, now).settings == db.settings && Version(Cancelled(db, lag, now)) == Version(db)
  {
  }

  lemma ConfiguredWindow(db: Tables, lag: int, preference: real, now: Time)
    ensures var to := ConfigureScheduler(db, lag, preference, now).db;
            && Version(to) == Version(db)
            && to.settings.maxLag == if lag >= 0 && preference >= 0.0 then Some(lag) else db.settings.maxLag
  {
    hide Cancelled;
    if lag >= 0 {
      CancelledSettings(db.(settings := db.settings.(maxLag := Some(lag), preference := Some(preference))), lag, now);
    }
  }

  /** Only a committed activation moves the active version, and only a committed configuration the limit. */
  lemma WindowStep(db: Tables, to: Tables, retry: Retry, e: Coordinator.Event, now: Time)
    requires db.active in db.policies && Coordinator.Step(db, to, retry, e, now)
    ensures Version(to) == if Activated(db, e).Some? then Activated(db, e).value else Version(db)
    ensures to.settings.maxLag == if Limited(e).Some? then Limited(e) else db.settings.maxLag
  {
    hide RecordPolicy;
    hide ActivatePolicy;
    hide ConfigureScheduler;
    match e
    case RecordEvent(policy) => RecordedVersion(db, policy);
    case ActivateEvent(id) => ActivatedVersion(db, id, now);
    case RecordAndActivateEvent(policy) =>
      RecordedVersion(db, policy);
      ActivatedVersion(RecordPolicy(db, policy).db, policy.manifest.policyId, now);
      ActivatedResult(RecordPolicy(db, policy).db, policy.manifest.policyId, now);
    case ConfigureEvent(lag, preference) => ConfiguredWindow(db, lag, preference, now);
    case _ =>
      hide Coordinator.Step;
      QuietWindow(db, to, retry, e, now);
  }

  lemma ActivatedResult(db: Tables, id: Id, now: Time)
    ensures ActivatePolicy(db, id, now).result.Success? <==> id in db.policies && Version(db) <= db.policies[id].manifest.version
  {
    hide Reconciled;
  }

  // ---------------------------------------------------------------- the window at the commit

  /** The version of the last activation committed in `from..to`, or else the one read at `from`. */
  function LatestVersion(states: seq<State>, events: seq<Timed>, from: nat, to: nat, read: nat): nat
    requires from <= to <= |events| < |states|
  {
    if to == from then read
    else
      var a := events[to - 1].action;
      if a.Coordinate? && Activated(states[to - 1].db, a.event).Some? then Activated(states[to - 1].db, a.event).value
      else LatestVersion(states, events, from, to - 1, read)
  }

  /** The limit of the last configuration committed in `from..to`, or else the one read at `from`. */
  function LatestLimit(events: seq<Timed>, from: nat, to: nat, read: Option<nat>): Option<nat>
    requires from <= to <= |events|
  {
    if to == from then read
    else
      var a := events[to - 1].action;
      if a.Coordinate? && Limited(a.event).Some? then Limited(a.event) else LatestLimit(events, from, to - 1, read)
  }

  lemma OwnSteps(s: State, to: State, retry: Retry, limit: Limit, a: Action, now: Time)
    requires Step(s, to, retry, limit, a, now)
    ensures if a.Coordinate? then Coordinator.Step(s.db, to.db, retry, a.event, now) else to.db == s.db
  {
    hide Coordinator.Step;
    hide MadeOk;
    hide Acts;
    hide After;
    hide RecordGroup;
    hide Version;
  }

  lemma ActiveKnown(s: State, now: Time)
    requires StateOk(s, now)
    ensures s.db.active in s.db.policies
  {
    hide LedgerOk;
    hide Drawn;
    hide BatchesOk;
    hide ListingOk;
    hide StaleOk;
    hide CapacityOk;
    hide ClockOk;
    hide RowsOk;
    hide LinksOk;
    hide HeldOk;
    hide NumberedOk;
    hide MembersOk;
    hide ReadyOk;
    hide KeysOk;
    hide SessionsOk;
    hide SpecOk;
  }

  lemma WindowMoves(states: seq<State>, events: seq<Timed>, retry: Retry, limit: Limit, start: Time, i: nat)
    requires IsRun(states, events, retry, limit) && StartsAt(states, events, start) && i < |events|
    ensures var a := events[i].action;
            && Version(states[i + 1].db)
               == (if a.Coordinate? && Activated(states[i].db, a.event).Some? then Activated(states[i].db, a.event).value
                   else Version(states[i].db))
            && states[i + 1].db.settings.maxLag
               == (if a.Coordinate? && Limited(a.event).Some? then Limited(a.event) else states[i].db.settings.maxLag)
  {
    hide Step;
    hide StateOk;
    hide Version;
    hide Activated;
    hide Limited;
    hide Coordinator.Step;
    LedgerRunKeeps(states, events, retry, limit, start, i);
    ActiveKnown(states[i], TimeAt(events, start, i));
    OwnSteps(states[i], states[i + 1], retry, limit, events[i].action, events[i].now);
    if events[i].action.Coordinate? {
      WindowStep(states[i].db, states[i + 1].db, retry, events[i].action.event, events[i].now);
    }
  }

  lemma {:induction false} VersionFollows(states: seq<State>, events: seq<Timed>, retry: Retry, limit: Limit, start: Time, from: nat, to: nat)
    requires IsRun(states, events, retry, limit) && StartsAt(states, events, start) && from <= to <= |events|
    ensures Version(states[to].db) == LatestVersion(states, events, from, to, Version(states[from].db))
  {
    hide Step;
    hide StartsAt;
    hide Version;
    hide Activated;
    hide Limited;
    if from < to {
      VersionFollows(states, events, retry, limit, start, from, to - 1);
      WindowMoves(states, events, retry, limit, start, to - 1);
    }
  }

  lemma {:induction false} LimitFollows(states: seq<State>, events: seq<Timed>, retry: Retry, limit: Limit, start: Time, from: nat, to: nat)
    requires IsRun(states, events, retry, limit) && StartsAt(states, events, start) && from <= to <= |events|
    ensures states[to].db.settings.maxLag == LatestLimit(events, from, to, states[from].db.settings.maxLag)
  {
    hide Step;
    hide StartsAt;
    hide Version;
    hide Activated;
    hide Limited;
    if from < to {
      LimitFollows(states, events, retry, limit, start, from, to - 1);
      WindowMoves(states, events, retry, limit, start, to - 1);
    }
  }

  /** Neither an activation nor a configuration is committed in `from..to`. */
  ghost predicate Undisturbed(states: seq<State>, events: seq<Timed>, from: nat, to: nat)
    requires from <= to <= |events| < |states|
  {
    forall m :: from <= m < to && events[m].action.Coordinate? ==>
      Activated(states[m].db, events[m].action.event).None? && Limited(events[m].action.event).None?
  }

  lemma {:induction false} UndisturbedWindow(states: seq<State>, events: seq<Timed>, v: nat, l: nat, i: nat, w: Window)
    requires v <= l <= i <= |events| < |states| && Undisturbed(states, events, v, i)
    ensures LatestVersion(states, events, v, i, w.active) == w.active && LatestLimit(events, l, i, w.lag) == w.lag
    decreases i
  {
    hide Activated;
    hide Limited;
    if l < i {
      UndisturbedWindow(states, events, v, l, i - 1, w);
    } else if v < i {
      UndisturbedWindow(states, events, v, l - 1, i - 1, w);
    }
  }

  /**
   The batch of a run is within the lag when it is committed exactly when its version is within the limit of the last
   configuration after the limit was read, counted from the last activation after the version was read.
   */
  lemma LagAtCommit(states: seq<State>, events: seq<Timed>, retry: Retry, limit: Limit, start: Time, v: nat, l: nat, i: nat, p: Pass)
    requires IsRun(states, events, retry, limit) && StartsAt(states, events, start)
    requires i < |events| && events[i].action == Act(p) && p.deed.EmitBatch? && ReadAt(states, events, v, l, i, p.window)
    ensures NewBatch(p).examples != []
    ensures var version := NewBatch(p).examples[0].policy.version;
            var active, lag := LatestVersion(states, events, v, i, p.window.active), LatestLimit(events, l, i, p.window.lag);
            NoneBeyond(WindowOf(states[i].db), NewBatch(p)) <==> (lag.Some? ==> active - version <= lag.value)
    ensures Undisturbed(states, events, v, i) ==> NoneBeyond(WindowOf(states[i].db), NewBatch(p))
  {
    hide Step;
    hide StartsAt;
    hide Version;
    EmittedHomogeneous(states, events, retry, limit, start, i, p);
    VersionFollows(states, events, retry, limit, start, v, i);
    LimitFollows(states, events, retry, limit, start, l, i);
    ActReads(states, events, retry, limit, start, i, p);
    hide IsRun;
    hide LatestVersion;
    hide LatestLimit;
    hide ActsAt;
    hide NewBatch;
    hide StepOf;
    hide WithinAsRead;
    hide LedgerSince;
    if Undisturbed(states, events, v, i) {
      UndisturbedWindow(states, events, v, l, i, p.window);
      EmittedWithin(states, events, retry, limit, start, i, p);
    }
    OneVersion(WindowOf(states[i].db), NewBatch(p));
    hide Undisturbed;
    hide NoneBeyond;
    hide OnePolicyBatch;
  }

  lemma OneVersion(w: Window, b: Batch)
    requires OnePolicyBatch(b) && b.examples != []
    ensures NoneBeyond(w, b) <==> !Beyond(w, b.examples[0].policy.version)
  {
  }

  lemma EmittedWithin(states: seq<State>, events: seq<Timed>, retry: Retry, limit: Limit, start: Time, i: nat, p: Pass)
    requires IsRun(states, events, retry, limit) && StartsAt(states, events, start)
    requires i < |events| && events[i].action == Act(p) && p.deed.EmitBatch?
    ensures NoneBeyond(p.window, NewBatch(p))
  {
    hide Step;
    hide Version;
    EmittedHomogeneous(states, events, retry, limit, start, i, p);
    hide IsRun;
    hide NoneBeyond;
    hide NewBatch;
    hide LedgerSince;
    var v: nat, l: nat :| ReadAt(states, events, v, l, i, p.window)
                          && NoneBeyond(Window(Version(states[v].db), states[l].db.settings.maxLag), NewBatch(p));
    assert p.window == Window(Version(states[v].db), states[l].db.settings.maxLag);
  }
}
