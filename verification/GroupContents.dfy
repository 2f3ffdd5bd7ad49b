/** What every created group holds: its occurrence's task, and members as its source specifies them. */
module GroupContents {
  import opened Wrappers
  import opened CoordinatorTables
  import opened CoordinatorOperations
  import opened CoordinatorInvariants
  import opened CoordinatorGrowth
  import opened CoordinatorRuns
  import opened FairScheduling

  // ---------------------------------------------------------------- one creation

  /** An enabled source, of the kind asked for if there is one. */
  predicate CanCreate(db: Tables, kind: Option<Kind>, s: Id) {
    s in db.sources && db.sources[s].spec.enabled && (kind.Some? ==> db.sources[s].spec.kind == kind.value)
  }

  /** The source with the least virtual finish, and of those the one with the least identity. */
  ghost predicate TurnOf(db: Tables, kind: Option<Kind>, s: Id) {
    && CanCreate(db, kind, s)
    && forall t :: CanCreate(db, kind, t) && t != s ==>
         || db.sources[s].virtualFinish < db.sources[t].virtualFinish
         || (db.sources[s].virtualFinish == db.sources[t].virtualFinish && s < t)
  }

  /** The group of the source's next occurrence, for the active policy. */
  predicate NewGroup(db: Tables, s: Id, group: Group, now: Time) {
    && s in db.sources && db.sources[s].spec.tasks != []
    && var source := db.sources[s];
       && group.policy == db.active && group.kind == source.spec.kind && group.size == source.spec.groupSize
       && group.task == source.spec.tasks[source.cursor % |source.spec.tasks|] && group.createdAt == now
       && group.key == Occurrence(s, source.cursor) && group.sequence == db.settings.nextSequence && group.state == Collecting
  }

  /** A member that waits for its first attempt, open at once, until the source's timeout if it has one. */
  predicate NewMember(db: Tables, s: Id, row: Assignment, g: Id, now: Time) {
    && s in db.sources
    && var spec := db.sources[s].spec;
       && row.group == g && row.index < spec.groupSize && row.policy == db.active && row.maxAttempts == spec.maxAttempts
       && row.createdAt == now && row.availableAt == now && row.attemptCount == 0 && row.state == Pending
       && row.deadline == (if spec.timeout.Some? then Some(now + spec.timeout.value) else None)
       && row.current == None && row.outcome == None && row.accepted == None && row.cancellation == None
  }

  /** Group `g` of source `s` is new. */
  ghost predicate AddsOne(db: Tables, to: Tables, s: Id, g: Id, now: Time) {
    && g !in db.groups && to.groups.Keys == db.groups.Keys + {g} && NewGroup(db, s, to.groups[g], now)
    && forall h :: h in db.groups ==> to.groups[h] == db.groups[h]
  }

  /** The group's members are new, as many as its size and each at its own index. */
  ghost predicate AddsMembers(db: Tables, to: Tables, s: Id, g: Id, now: Time) {
    && s in db.sources
    && (forall a :: a in db.assignments ==> a in to.assignments && to.assignments[a] == db.assignments[a])
    && (forall a :: a in to.assignments && a !in db.assignments ==> NewMember(db, s, to.assignments[a], g, now))
    && GrownApart(db, to, db.sources[s].spec.groupSize)
  }

  /** The source has moved on by one occurrence and by the group's size over its weight; the other sources have not. */
  ghost predicate MovesOn(db: Tables, to: Tables, s: Id) {
    && s in db.sources && db.sources[s].spec.weight > 0.0
    && to.sources.Keys == db.sources.Keys && (forall t :: t in db.sources && t != s ==> to.sources[t] == db.sources[t])
    && to.sources[s].spec == db.sources[s].spec && to.sources[s].cursor == db.sources[s].cursor + 1
    && to.sources[s].virtualFinish == db.sources[s].virtualFinish + db.sources[s].spec.groupSize as real / db.sources[s].spec.weight
  }

  ghost predicate AddsGroup(db: Tables, to: Tables, s: Id, g: Id, now: Time) {
    && AddsOne(db, to, s, g, now) && AddsMembers(db, to, s, g, now) && MovesOn(db, to, s)
    && to == db.(settings := db.settings.(nextSequence := db.settings.nextSequence + 1),
                 groups := to.groups, assignments := to.assignments, sources := to.sources)
  }

  lemma NextTurn(db: Tables, kind: Option<Kind>)
    ensures Enabled(db.sources, kind) != {} <==> exists s :: CanCreate(db, kind, s)
    ensures Enabled(db.sources, kind) != {} ==> TurnOf(db, kind, Next(db.sources, Enabled(db.sources, kind)))
  {
    forall s ensures s in Enabled(db.sources, kind) <==> CanCreate(db, kind, s) {}
    if Enabled(db.sources, kind) != {} {
      var s := Next(db.sources, Enabled(db.sources, kind));
      assert IsNext(db.sources, Enabled(db.sources, kind), s);
    }
    hide Enabled;
  }

  lemma EnabledListed(db: Tables, kind: Option<Kind>)
    ensures Enabled(db.sources, kind) <= db.sources.Keys
  {
  }

  lemma MemberIs(db: Tables, s: Id, ids: nat -> Id, now: Time, index: nat)
    requires s in db.sources && index < db.sources[s].spec.groupSize
    ensures NewMember(db, s, NewRow(db.sources[s].spec, db.active, ids(0), index, now), ids(0), now)
  {
  }

  lemma CreatedMembers(db: Tables, s: Id, ids: nat -> Id, now: Time)
    requires s in db.sources && SpecOk(db.sources[s].spec) && FreshIds(db, ids, db.sources[s].spec.groupSize)
    ensures AddsMembers(db, Created(db, s, ids, now), s, ids(0), now)
  {
    hide NewRows;
    hide NewRow;
    hide NewRowOk;
    hide SpecOk;
    hide NewMember;
    hide FreshIds;
    hide GrownApart;
    var spec := db.sources[s].spec;
    CreatedWork(db, s, ids, now);
    NewRowsHold(spec, db.active, ids(0), ids, now, spec.groupSize);
    var rows, to := NewRows(spec, db.active, ids(0), ids, now, spec.groupSize), Created(db, s, ids, now);
    forall a | a in to.assignments && a !in db.assignments ensures NewMember(db, s, to.assignments[a], ids(0), now) {
      assert a in rows && to.assignments[a] == rows[a];
      MemberIs(db, s, ids, now, rows[a].index);
    }
  }

  lemma CreatedOne(db: Tables, s: Id, ids: nat -> Id, now: Time)
    requires s in db.sources && SpecOk(db.sources[s].spec) && ids(0) !in db.groups
    ensures AddsOne(db, Created(db, s, ids, now), s, ids(0), now) && MovesOn(db, Created(db, s, ids, now), s)
  {
    hide NewRows;
  }

  lemma CreatedAdds(db: Tables, s: Id, ids: nat -> Id, now: Time)
    requires s in db.sources && SpecOk(db.sources[s].spec) && FreshIds(db, ids, db.sources[s].spec.groupSize)
    ensures AddsGroup(db, Created(db, s, ids, now), s, ids(0), now)
  {
    hide NewRows;
    hide AddsOne;
    hide AddsMembers;
    hide MovesOn;
    hide SpecOk;
    CreatedMembers(db, s, ids, now);
    CreatedOne(db, s, ids, now);
  }

  /** One of the new group's identities is a group's or an assignment's already, or is used twice for its `n` members. */
  ghost predicate IdentityUsed(db: Tables, ids: nat -> Id, n: nat) {
    || ids(0) in db.groups
    || (exists i :: 1 <= i <= n && ids(i) in db.assignments)
    || (exists i, j :: 1 <= i < j <= n && ids(i) == ids(j))
  }

  lemma FreshIs(db: Tables, ids: nat -> Id, n: nat)
    ensures FreshIds(db, ids, n) <==> !IdentityUsed(db, ids, n)
  {
  }

  /** What a creation answers: the new group of the source whose turn it is, or none when no source may create. */
  ghost predicate CreationDecided(db: Tables, kind: Option<Kind>, ids: nat -> Id, now: Time, r: Reply<Option<Id>>) {
    && (r.result == Success(None) <==> !exists s :: CanCreate(db, kind, s))
    && (r.result.Success? && r.result.value.Some? ==>
          r.result.value == Some(ids(0)) && exists s :: TurnOf(db, kind, s) && AddsGroup(db, r.db, s, ids(0), now))
    && (r.result.Failure? ==>
          r.result.error == Integrity && exists s :: TurnOf(db, kind, s) && IdentityUsed(db, ids, db.sources[s].spec.groupSize))
    && (r.result.Failure? || r.result.value.None? ==> r.db == db)
  }

  lemma CreationShape(db: Tables, kind: Option<Kind>, ids: nat -> Id, now: Time)
    requires (forall s :: s in db.sources ==> SpecOk(db.sources[s].spec)) && KeysOk(db)
    ensures var r := CreateNextGroup(db, kind, ids, now);
            if Enabled(db.sources, kind) == {} then r == Reply(db, Success(None))
            else
              var s := Next(db.sources, Enabled(db.sources, kind));
              && s in db.sources
              && r == if FreshIds(db, ids, db.sources[s].spec.groupSize) then Reply(Created(db, s, ids, now), Success(Some(ids(0))))
                      else Reply(db, Failure(Integrity))
  {
    hide SpecOk;
    hide FreshIds;
    hide KeyTaken;
    hide KeysOk;
    hide Created;
    hide IsNext;
    if Enabled(db.sources, kind) != {} {
      NextListed(db.sources, Enabled(db.sources, kind));
      KeyFree(db, Next(db.sources, Enabled(db.sources, kind)));
    }
  }

  /** Creation takes the next occurrence of the source whose turn it is, and fails only on an identity already used. */
  lemma CreatesNext(db: Tables, kind: Option<Kind>, ids: nat -> Id, now: Time)
    requires Invariant(db, now)
    ensures forall s :: s in db.sources ==> SpecOk(db.sources[s].spec)
    ensures CreationDecided(db, kind, ids, now, CreateNextGroup(db, kind, ids, now))
  {
    hide Invariant;
    hide KeysOk;
    hide SpecOk;
    hide FreshIds;
    hide TurnOf;
    hide AddsGroup;
    hide Created;
    hide Enabled;
    hide CanCreate;
    hide IdentityUsed;
    SourceFacts(db, now);
    KeysFacts(db, now);
    CreationShape(db, kind, ids, now);
    hide CreateNextGroup;
    NextTurn(db, kind);
    EnabledListed(db, kind);
    if Enabled(db.sources, kind) != {} {
      var s := Next(db.sources, Enabled(db.sources, kind));
      FreshIs(db, ids, db.sources[s].spec.groupSize);
      if FreshIds(db, ids, db.sources[s].spec.groupSize) { CreatedAdds(db, s, ids, now); }
    }
  }

  lemma KeysFacts(db: Tables, now: Time)
    requires Invariant(db, now)
    ensures KeysOk(db)
  {
  }

  // ---------------------------------------------------------------- every group of a run

  /** The group carries the task of its occurrence: task n modulo the number of tasks for the source's n-th group. */
  ghost predicate GroupFits(db: Tables, g: Id)
    requires g in db.groups
  {
    var group := db.groups[g];
    && group.key.source in db.sources
    && var source, n := db.sources[group.key.source], group.key.cursor;
       && n < source.cursor && source.spec.tasks != [] && group.task == source.spec.tasks[n % |source.spec.tasks|]
       && group.kind == source.spec.kind && group.size == source.spec.groupSize
  }

  /** The member has its group's policy and age, and its source's attempts and timeout. */
  ghost predicate MemberFits(db: Tables, a: Id)
    requires a in db.assignments
  {
    var row := db.assignments[a];
    && row.group in db.groups && db.groups[row.group].key.source in db.sources
    && var group := db.groups[row.group];
       var spec := db.sources[group.key.source].spec;
       && row.policy == group.policy && row.createdAt == group.createdAt && row.maxAttempts == spec.maxAttempts
       && row.deadline == if spec.timeout.Some? then Some(group.createdAt + spec.timeout.value) else None
  }

  /** The source's `n`-th group exists. */
  ghost predicate HasOccurrence(db: Tables, s: Id, n: nat) {
    exists g :: g in db.groups && db.groups[g].key == Occurrence(s, n)
  }

  ghost predicate ContentsOk(db: Tables) {
    && (forall g :: g in db.groups ==> GroupFits(db, g))
    && (forall a :: a in db.assignments ==> MemberFits(db, a))
    && (forall s, n: nat :: s in db.sources && n < db.sources[s].cursor ==> HasOccurrence(db, s, n))
  }

  /** No group and no assignment is new. */
  ghost predicate NothingCreated(db: Tables, to: Tables) {
    to.groups.Keys <= db.groups.Keys && to.assignments.Keys <= db.assignments.Keys
  }

  /** No source has moved on, and a new one is at its start. */
  ghost predicate NoneMoved(db: Tables, to: Tables) {
    forall s :: s in to.sources ==> to.sources[s].cursor == if s in db.sources then db.sources[s].cursor else 0
  }

  lemma ContentsKept(db: Tables, to: Tables)
    requires ContentsOk(db) && Evolves(db, to) && NothingCreated(db, to) && NoneMoved(db, to)
    ensures ContentsOk(to)
  {
    forall g | g in to.groups ensures GroupFits(to, g) {
      assert GroupFits(db, g) && GroupEvolves(db.groups[g], to.groups[g]);
      assert SourceEvolves(db.sources[db.groups[g].key.source], to.sources[db.groups[g].key.source]);
    }
    forall a | a in to.assignments ensures MemberFits(to, a) {
      assert MemberFits(db, a) && RowEvolves(db.assignments[a], to.assignments[a]);
      var g := db.assignments[a].group;
      assert GroupEvolves(db.groups[g], to.groups[g]);
      assert SourceEvolves(db.sources[db.groups[g].key.source], to.sources[db.groups[g].key.source]);
    }
    forall s, n: nat | s in to.sources && n < to.sources[s].cursor ensures HasOccurrence(to, s, n) {
      assert HasOccurrence(db, s, n);
      var g :| g in db.groups && db.groups[g].key == Occurrence(s, n);
      assert GroupEvolves(db.groups[g], to.groups[g]);
    }
  }

  lemma GroupsGrown(db: Tables, to: Tables, s: Id, g: Id, now: Time)
    requires ContentsOk(db) && AddsGroup(db, to, s, g, now)
    ensures forall h :: h in to.groups ==> GroupFits(to, h)
  {
    hide AddsMembers;
    forall h | h in to.groups ensures GroupFits(to, h) {
      if h != g { assert GroupFits(db, h); }
    }
  }

  lemma MemberGrown(db: Tables, to: Tables, s: Id, g: Id, now: Time, a: Id)
    requires AddsGroup(db, to, s, g, now) && a in to.assignments && (a in db.assignments ==> MemberFits(db, a))
    ensures MemberFits(to, a)
  {
    hide GrownApart;
  }

  lemma MembersGrown(db: Tables, to: Tables, s: Id, g: Id, now: Time)
    requires ContentsOk(db) && AddsGroup(db, to, s, g, now)
    ensures forall a :: a in to.assignments ==> MemberFits(to, a)
  {
    hide AddsGroup;
    hide MemberFits;
    hide GroupFits;
    hide HasOccurrence;
    forall a | a in to.assignments ensures MemberFits(to, a) { MemberGrown(db, to, s, g, now, a); }
  }

  lemma OccurrencesGrown(db: Tables, to: Tables, s: Id, g: Id, now: Time, t: Id, n: nat)
    requires ContentsOk(db) && AddsGroup(db, to, s, g, now) && t in to.sources && n < to.sources[t].cursor
    ensures HasOccurrence(to, t, n)
  {
    hide AddsMembers;
    hide GroupFits;
    hide MemberFits;
    if t == s && n == db.sources[s].cursor {
      assert to.groups[g].key == Occurrence(t, n);
    } else {
      assert HasOccurrence(db, t, n);
      var h :| h in db.groups && db.groups[h].key == Occurrence(t, n);
      assert to.groups[h].key == Occurrence(t, n);
    }
  }

  lemma ContentsGrown(db: Tables, to: Tables, s: Id, g: Id, now: Time)
    requires ContentsOk(db) && AddsGroup(db, to, s, g, now)
    ensures ContentsOk(to)
  {
    GroupsGrown(db, to, s, g, now);
    MembersGrown(db, to, s, g, now);
    forall t, n: nat | t in to.sources && n < to.sources[t].cursor ensures HasOccurrence(to, t, n) {
      OccurrencesGrown(db, to, s, g, now, t, n);
    }
    hide AddsGroup;
    hide GroupFits;
    hide MemberFits;
    hide HasOccurrence;
  }

  // ---------------------------------------------------------------- which steps create

  lemma ReleaseCreates(db: Tables, retry: Retry, lag: nat, now: Time)
    ensures NothingCreated(db, Expired(db, retry, now)) && NothingCreated(db, Cancelled(db, lag, now)) && NothingCreated(db, Reconciled(db, now))
  {
    hide AssignmentAfterExpiry;
    hide LeaseAfterExpiry;
    hide AssignmentAfterCancel;
    hide LeaseAfterCancel;
  }

  lemma PolicyCreates(db: Tables, policy: Policy, id: Id, now: Time)
    ensures NothingCreated(db, RecordPolicy(db, policy).db) && NothingCreated(db, ActivatePolicy(db, id, now).db)
  {
    hide Reconciled;
    hide VersionTaken;
    ReleaseCreates(db.(active := id), Retry(1.0, 1.0), 0, now);
  }

  lemma BothCreate(db: Tables, policy: Policy, now: Time)
    ensures NothingCreated(db, RecordAndActivatePolicy(db, policy, now).db)
  {
    hide RecordPolicy;
    hide ActivatePolicy;
    PolicyCreates(db, policy, 0, now);
    PolicyCreates(RecordPolicy(db, policy).db, policy, policy.manifest.policyId, now);
  }

  lemma ConfigureCreates(db: Tables, lag: int, preference: real, now: Time)
    ensures NothingCreated(db, ConfigureScheduler(db, lag, preference, now).db)
  {
    hide Reconciled;
    if lag >= 0 {
      ReleaseCreates(db.(settings := db.settings.(maxLag := Some(lag), preference := Some(preference))), Retry(1.0, 1.0), lag, now);
    }
  }

  lemma BeatCreates(db: Tables, h: Heartbeat, duration: real, now: Time)
    ensures NothingCreated(db, RecordHeartbeat(db, h, duration, now).db)
  {
    hide Reconciled;
    hide Answer;
    hide LeaseAfterBeat;
    ReleaseCreates(db, Retry(1.0, 1.0), 0, now);
  }

  lemma RenewCreates(db: Tables, r: Renew, duration: real, now: Time)
    ensures NothingCreated(db, RenewLease(db, r, duration, now).db)
  {
    hide Reconciled;
    hide ExtendedTo;
    ReleaseCreates(db, Retry(1.0, 1.0), 0, now);
  }

  lemma ExpireCreates(db: Tables, retry: Retry, now: Time)
    ensures NothingCreated(db, ExpireLeases(db, retry, now))
  {
    hide Reconciled;
    hide Expired;
    ReleaseCreates(db, retry, 0, now);
    ReleaseCreates(Reconciled(db, now), retry, 0, now);
  }

  lemma LeaseCreates(db: Tables, q: LeaseRequest, retry: Retry, duration: real, leaseId: Id, now: Time)
    ensures NothingCreated(db, LeaseNext(db, q, retry, duration, leaseId, now).db)
  {
    hide Live;
    hide Choice;
    hide Expired;
    hide Cancelled;
    if db.settings.maxLag.Some? {
      ReleaseCreates(db, retry, 0, now);
      ReleaseCreates(Expired(db, retry, now), retry, db.settings.maxLag.value, now);
    }
  }

  lemma EnvelopeCreates(db: Tables, retry: Retry, e: ResultEnvelope, f: FailureEnvelope, now: Time)
    ensures NothingCreated(db, AcceptResult(db, e, now).db) && NothingCreated(db, AcceptFailure(db, retry, f, now).db)
  {
    hide RowAfterResult;
    hide RowAfterFailure;
    hide Settled;
  }

  lemma SourceCreates(db: Tables, id: Id, spec: SourceSpec)
    ensures NothingCreated(db, RegisterSource(db, id, spec).db) && NoneMoved(db, RegisterSource(db, id, spec).db)
  {
    hide LeastFinish;
  }

  lemma SessionCreates(db: Tables, session: Id, worker: Id, capabilities: Capabilities, id: Id)
    ensures NothingCreated(db, MarkNoWork(db, id).db) && NothingCreated(db, RegisterWorker(db, session, worker, capabilities).db)
  {
  }

  lemma RequestCreates(db: Tables, q: LeaseRequest, now: Time)
    ensures NothingCreated(db, ValidateLeaseRequest(db, q, now).db)
  {
    hide Live;
  }

  const NOTHING := Capabilities(0, 0, 0)

  lemma NoneMovedOn(db: Tables, to: Tables, retry: Retry, e: Event, now: Time)
    requires Step(db, to, retry, e, now) && !e.GroupEvent? && !e.SourceEvent?
    ensures NoneMoved(db, to)
  {
    hide Step;
    QuietSources(db, to, retry, e, now);
  }

  /** Only the creation of a group creates groups and assignments or moves a source on. */
  lemma OnlyCreationCreates(db: Tables, to: Tables, retry: Retry, e: Event, now: Time)
    requires Step(db, to, retry, e, now) && !e.GroupEvent?
    ensures NothingCreated(db, to) && NoneMoved(db, to)
  {
    hide NothingCreated;
    if !e.SourceEvent? { NoneMovedOn(db, to, retry, e, now); }
    hide NoneMoved;
    hide RecordPolicy;
    hide ActivatePolicy;
    hide RecordAndActivatePolicy;
    hide ConfigureScheduler;
    hide RegisterWorker;
    hide RecordHeartbeat;
    hide RenewLease;
    hide ValidateLeaseRequest;
    hide MarkNoWork;
    hide LeaseNext;
    hide ExpireLeases;
    hide AcceptResult;
    hide AcceptFailure;
    hide RegisterSource;
    hide SpecOk;
    match e
    case RecordEvent(policy) => PolicyCreates(db, policy, 0, now);
    case ActivateEvent(id) => PolicyCreates(db, Policy(Manifest(0, 0, 0, None, 0), 0), id, now);
    case RecordAndActivateEvent(policy) => BothCreate(db, policy, now);
    case ConfigureEvent(lag, preference) => ConfigureCreates(db, lag, preference, now);
    case RegisterEvent(session, worker, capabilities) => SessionCreates(db, session, worker, capabilities, 0);
    case HeartbeatEvent(h, duration) => BeatCreates(db, h, duration, now);
    case RenewEvent(r, duration) => RenewCreates(db, r, duration, now);
    case RequestEvent(q) => RequestCreates(db, q, now);
    case NoWorkEvent(id) => SessionCreates(db, 0, 0, NOTHING, id);
    case LeaseEvent(q, duration, lease) => LeaseCreates(db, q, retry, duration, lease, now);
    case ExpireEvent => ExpireCreates(db, retry, now);
    case ResultEvent(r) => EnvelopeCreates(db, retry, r, FailureEnvelope(0, 0, 0, 0, 0, false, 0), now);
    case FailureEvent(f) => EnvelopeCreates(db, retry, ResultEnvelope(0, 0, 0, 0, 0, 0, Manifest(0, 0, 0, None, 0), 0), f, now);
    case SourceEvent(id, spec) => SourceCreates(db, id, spec);
  }

  lemma StepContents(db: Tables, to: Tables, retry: Retry, e: Event, now: Time)
    requires Invariant(db, now) && RetryOk(retry) && Step(db, to, retry, e, now) && ContentsOk(db)
    ensures ContentsOk(to)
  {
    hide Invariant;
    hide ContentsOk;
    hide Evolves;
    hide NothingCreated;
    hide NoneMoved;
    StepKeeps(db, to, retry, e, now);
    if e.GroupEvent? {
      hide AddsGroup;
      hide TurnOf;
      CreatesNext(db, e.kind, e.ids, now);
      hide CreateNextGroup;
      if to != db {
        var s :| AddsGroup(db, to, s, e.ids(0), now);
        ContentsGrown(db, to, s, e.ids(0), now);
      }
    } else {
      OnlyCreationCreates(db, to, retry, e, now);
      hide Step;
      ContentsKept(db, to);
    }
  }

  /**
   In every state of every run, a source's n-th group exists for each n below its cursor and carries task n modulo the
   number of its tasks; every group and every member is as its source specifies it.
   */
  lemma {:induction false} RunContents(states: seq<Tables>, events: seq<Timed>, retry: Retry, start: Time, i: nat)
    requires IsRun(states, events, retry) && StartsAt(states, events, start) && i <= |events|
    ensures ContentsOk(states[i])
    decreases i
  {
    hide Step;
    hide Invariant;
    hide ContentsOk;
    if i == 0 {
      NothingYet(states[0]);
    } else {
      RunContents(states, events, retry, start, i - 1);
      RunKeeps(states, events, retry, start, i - 1);
      ClockAdvances(states[i - 1], TimeAt(events, start, i - 1), events[i - 1].now);
      StepContents(states[i - 1], states[i], retry, events[i - 1].event, events[i - 1].now);
    }
  }

  lemma NothingYet(db: Tables)
    requires exists base :: db == Initialized(base)
    ensures ContentsOk(db)
  {
  }

  /** The n-th group of a source carries task n modulo the number of tasks, for good. */
  lemma TaskOfOccurrence(states: seq<Tables>, events: seq<Timed>, retry: Retry, start: Time, i: nat, s: Id, n: nat)
    requires IsRun(states, events, retry) && StartsAt(states, events, start) && i <= |events|
    requires s in states[i].sources && n < states[i].sources[s].cursor
    ensures exists g :: g in states[i].groups && states[i].groups[g].key == Occurrence(s, n)
    ensures forall g :: g in states[i].groups && states[i].groups[g].key == Occurrence(s, n) ==>
              && states[i].sources[s].spec.tasks != []
              && states[i].groups[g].task == states[i].sources[s].spec.tasks[n % |states[i].sources[s].spec.tasks|]
  {
    RunContents(states, events, retry, start, i);
    hide IsRun;
    hide StartsAt;
    assert HasOccurrence(states[i], s, n);
    forall g | g in states[i].groups && states[i].groups[g].key == Occurrence(s, n) ensures GroupFits(states[i], g) {
    }
  }

  // ---------------------------------------------------------------- what a source pays

  /** The source stands as it did, or one group has been created for it at the price of its size over its weight. */
  predicate Serves(from: Source, to: Source) {
    && from.spec == to.spec && from.spec.weight > 0.0
    && (to == from
        || (to.cursor == from.cursor + 1
            && to.virtualFinish == from.virtualFinish + from.spec.groupSize as real / from.spec.weight))
  }

  lemma GroupServes(db: Tables, kind: Option<Kind>, ids: nat -> Id, now: Time, s: Id)
    requires Invariant(db, now) && s in db.sources
    ensures forall t :: t in db.sources ==> SpecOk(db.sources[t].spec)
    ensures s in CreateNextGroup(db, kind, ids, now).db.sources && Serves(db.sources[s], CreateNextGroup(db, kind, ids, now).db.sources[s])
  {
    hide Invariant;
    hide SpecOk;
    hide Enabled;
    hide FreshIds;
    hide CanCreate;
    hide TurnOf;
    hide AddsOne;
    hide AddsMembers;
    hide MovesOn;
    hide AddsGroup;
    hide Serves;
    hide CreateNextGroup;
    SourceFacts(db, now);
    WeightPositive(db, s);
    CreatesNext(db, kind, ids, now);
    var to := CreateNextGroup(db, kind, ids, now).db;
    if to != db {
      var t :| AddsGroup(db, to, t, ids(0), now);
      MovedServes(db, to, t, ids(0), now, s);
    } else {
      SameServes(db.sources[s]);
    }
  }

  lemma WeightPositive(db: Tables, s: Id)
    requires (forall t :: t in db.sources ==> SpecOk(db.sources[t].spec)) && s in db.sources
    ensures db.sources[s].spec.weight > 0.0
  {
  }

  lemma MovedServes(db: Tables, to: Tables, t: Id, g: Id, now: Time, s: Id)
    requires AddsGroup(db, to, t, g, now) && s in db.sources && db.sources[s].spec.weight > 0.0
    ensures s in to.sources && Serves(db.sources[s], to.sources[s])
  {
    hide AddsOne;
    hide AddsMembers;
  }

  lemma RegistrationServes(db: Tables, id: Id, spec: SourceSpec, s: Id)
    requires s in db.sources && db.sources[s].spec.weight > 0.0
    ensures s in RegisterSource(db, id, spec).db.sources && Serves(db.sources[s], RegisterSource(db, id, spec).db.sources[s])
  {
    hide LeastFinish;
  }

  lemma StepServes(db: Tables, to: Tables, retry: Retry, e: Event, now: Time, s: Id)
    requires Invariant(db, now) && Step(db, to, retry, e, now) && s in db.sources
    ensures s in to.sources && Serves(db.sources[s], to.sources[s])
  {
    SourceFacts(db, now);
    assert SpecOk(db.sources[s].spec);
    hide Invariant;
    hide SpecOk;
    hide CreateNextGroup;
    hide RegisterSource;
    hide Serves;
    if e.GroupEvent? {
      GroupServes(db, e.kind, e.ids, now, s);
    } else if e.SourceEvent? {
      RegistrationServes(db, e.id, e.spec, s);
    } else {
      hide Step;
      QuietSources(db, to, retry, e, now);
      SameServes(db.sources[s]);
    }
  }

  lemma SameServes(s: Source)
    requires s.spec.weight > 0.0
    ensures Serves(s, s)
  {
  }

  /** Served so many times, at the same price each time. */
  ghost predicate Served(from: Source, to: Source) {
    && from.spec == to.spec && from.spec.weight > 0.0 && from.cursor <= to.cursor
    && to.virtualFinish == from.virtualFinish + (to.cursor - from.cursor) as real * (from.spec.groupSize as real / from.spec.weight)
  }

  lemma ServedOnce(from: Source, s: Source, to: Source)
    requires Served(from, s) && Serves(s, to)
    ensures Served(from, to)
  {
    OneMore(s.cursor - from.cursor, from.spec.groupSize as real / from.spec.weight);
  }

  /** Over every run, whatever kinds were asked for, a source's virtual finish grows by size over weight for each of its groups. */
  lemma {:induction false} RunServes(states: seq<Tables>, events: seq<Timed>, retry: Retry, start: Time, i: nat, j: nat, s: Id)
    requires IsRun(states, events, retry) && StartsAt(states, events, start) && i <= j <= |events| && s in states[i].sources
    ensures s in states[j].sources && Served(states[i].sources[s], states[j].sources[s])
    decreases j - i
  {
    hide Step;
    hide Invariant;
    if i < j {
      RunServes(states, events, retry, start, i, j - 1, s);
      RunKeeps(states, events, retry, start, j - 1);
      ClockAdvances(states[j - 1], TimeAt(events, start, j - 1), events[j - 1].now);
      StepServes(states[j - 1], states[j], retry, events[j - 1].event, events[j - 1].now, s);
      ServedOnce(states[i].sources[s], states[j - 1].sources[s], states[j].sources[s]);
    } else {
      RunKeeps(states, events, retry, start, i);
      SourceFacts(states[i], TimeAt(events, start, i));
      assert SpecOk(states[i].sources[s].spec);
      NoneServed(states[i].sources[s]);
    }
    hide Served;
  }

  lemma NoneServed(s: Source)
    requires s.spec.weight > 0.0
    ensures Served(s, s)
  {
  }

  /** When groups are created by need, no enabled source is ahead of another by more than the price of one of its groups. */
  lemma RunShares(states: seq<Tables>, events: seq<Timed>, retry: Retry, start: Time, i: nat, s: Id, t: Id)
    requires IsRun(states, events, retry) && StartsAt(states, events, start) && i <= |events|
    requires forall k :: 0 <= k < |events| && events[k].event.GroupEvent? ==> events[k].event.kind == None
    requires s in states[i].sources && t in states[i].sources && states[i].sources[s].spec.enabled && states[i].sources[t].spec.enabled
    ensures states[i].sources[s].spec.weight > 0.0
    ensures states[i].sources[s].virtualFinish - states[i].sources[t].virtualFinish
            <= states[i].sources[s].spec.groupSize as real / states[i].sources[s].spec.weight
  {
    RunFair(states, events, retry, start, i);
    hide IsRun;
    hide StartsAt;
    assert s in Enabled(states[i].sources, None) && t in Enabled(states[i].sources, None);
  }
}
