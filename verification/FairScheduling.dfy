/** Weighted fairness of group creation over every run that creates groups of any kind by need. */
module FairScheduling {
  import opened Wrappers
  import opened CoordinatorTables
  import opened CoordinatorOperations
  import opened CoordinatorInvariants
  import opened CoordinatorRuns

  predicate SpecsOk(sources: map<Id, Source>) {
    forall s :: s in sources ==> SpecOk(sources[s].spec)
  }

  /** No enabled source is ahead of another by more than the cost of one of its own groups. */
  ghost predicate Fair(sources: map<Id, Source>) {
    && SpecsOk(sources)
    && forall s, t :: s in Enabled(sources, None) && t in Enabled(sources, None) ==>
         sources[s].virtualFinish - sources[t].virtualFinish <= Cost(sources[s].spec)
  }

  lemma AdvanceFair(sources: map<Id, Source>)
    requires Fair(sources) && Enabled(sources, None) != {}
    ensures var s := Next(sources, Enabled(sources, None)); s in sources && Fair(sources[s := Advanced(sources[s])])
  {
    var s := Next(sources, Enabled(sources, None));
    assert IsNext(sources, Enabled(sources, None), s);
    hide Cost;
    var to := sources[s := Advanced(sources[s])];
    assert Enabled(to, None) == Enabled(sources, None);
    forall u, t | u in Enabled(to, None) && t in Enabled(to, None)
      ensures to[u].virtualFinish - to[t].virtualFinish <= Cost(to[u].spec)
    {
      assert t != s ==> Ahead(sources, s, t);
      assert sources[u].virtualFinish - sources[t].virtualFinish <= Cost(sources[u].spec);
    }
  }

  lemma RegisterFair(sources: map<Id, Source>, id: Id, spec: SourceSpec)
    requires Fair(sources) && id !in sources && SpecOk(spec)
    ensures Fair(sources[id := Source(spec, LeastFinish(sources), 0)])
  {
    assert spec.weight > 0.0 && forall s :: s in sources ==> sources[s].spec.weight > 0.0;
    hide Cost;
    hide SpecOk;
    var to := sources[id := Source(spec, LeastFinish(sources), 0)];
    var among := Enabled(sources, None);
    forall u, t | u in Enabled(to, None) && t in Enabled(to, None)
      ensures to[u].virtualFinish - to[t].virtualFinish <= Cost(to[u].spec)
    {
      assert u != id ==> u in among;
      assert t != id ==> t in among;
      if u == id && t != id {
        assert IsNext(sources, among, Next(sources, among));
      } else if u != id && t == id {
        assert Next(sources, among) in among;
      }
    }
  }

  /** Groups are created for whichever source is next, of either kind. */
  predicate ByNeed(e: Event) {
    e.GroupEvent? ==> e.kind.None?
  }

  lemma ReleaseSources(db: Tables, retry: Retry, lag: nat, now: Time)
    ensures Expired(db, retry, now).sources == db.sources && Cancelled(db, lag, now).sources == db.sources
    ensures Reconciled(db, now).sources == db.sources
  {
  }

  lemma PolicySources(db: Tables, policy: Policy, id: Id, now: Time)
    ensures RecordPolicy(db, policy).db.sources == db.sources && ActivatePolicy(db, id, now).db.sources == db.sources
  {
    hide Reconciled;
    ReleaseSources(db.(active := id), Retry(1.0, 1.0), 0, now);
  }

  lemma BeatSources(db: Tables, h: Heartbeat, duration: real, now: Time)
    ensures RecordHeartbeat(db, h, duration, now).db.sources == db.sources
  {
    hide Reconciled;
    hide Answer;
    hide LeaseAfterBeat;
    ReleaseSources(db, Retry(1.0, 1.0), 0, now);
  }

  lemma RenewSources(db: Tables, r: Renew, duration: real, now: Time)
    ensures RenewLease(db, r, duration, now).db.sources == db.sources
  {
    hide Reconciled;
    hide ExtendedTo;
    ReleaseSources(db, Retry(1.0, 1.0), 0, now);
  }

  lemma ExpireSources(db: Tables, retry: Retry, now: Time)
    ensures ExpireLeases(db, retry, now).sources == db.sources
  {
    hide Reconciled;
    hide Expired;
    ReleaseSources(db, retry, 0, now);
    ReleaseSources(Reconciled(db, now), retry, 0, now);
  }

  lemma LeaseSources(db: Tables, q: LeaseRequest, retry: Retry, duration: real, leaseId: Id, now: Time)
    ensures LeaseNext(db, q, retry, duration, leaseId, now).db.sources == db.sources
  {
    hide Live;
    hide Choice;
    hide Expired;
    hide Cancelled;
    if db.settings.maxLag.Some? {
      ReleaseSources(db, retry, 0, now);
      ReleaseSources(Expired(db, retry, now), retry, db.settings.maxLag.value, now);
    }
  }

  lemma ConfigureSources(db: Tables, lag: int, preference: real, now: Time)
    ensures ConfigureScheduler(db, lag, preference, now).db.sources == db.sources
  {
    hide Reconciled;
    if lag >= 0 {
      var tx := db.(settings := db.settings.(maxLag := Some(lag), preference := Some(preference)));
      ReleaseSources(tx, Retry(1.0, 1.0), lag, now);
    }
  }

  lemma EnvelopeSources(db: Tables, retry: Retry, e: ResultEnvelope, f: FailureEnvelope, now: Time)
    ensures AcceptResult(db, e, now).db.sources == db.sources && AcceptFailure(db, retry, f, now).db.sources == db.sources
  {
    hide RowAfterResult;
    hide RowAfterFailure;
    hide Settled;
  }

  lemma QuietSources(db: Tables, to: Tables, retry: Retry, e: Event, now: Time)
    requires Step(db, to, retry, e, now) && !e.GroupEvent? && !e.SourceEvent?
    ensures to.sources == db.sources
  {
    hide RecordPolicy;
    hide ActivatePolicy;
    hide ConfigureScheduler;
    hide RecordHeartbeat;
    hide RenewLease;
    hide LeaseNext;
    hide ExpireLeases;
    hide AcceptResult;
    hide AcceptFailure;
    hide CreateNextGroup;
    hide RegisterSource;
    hide Live;
    match e
    case RecordEvent(policy) => PolicySources(db, policy, 0, now);
    case ActivateEvent(id) => PolicySources(db, Policy(Manifest(0, 0, 0, None, 0), 0), id, now);
    case RecordAndActivateEvent(policy) =>
      PolicySources(db, policy, 0, now);
      PolicySources(RecordPolicy(db, policy).db, policy, policy.manifest.policyId, now);
    case ConfigureEvent(lag, preference) => ConfigureSources(db, lag, preference, now);
    case HeartbeatEvent(h, duration) => BeatSources(db, h, duration, now);
    case RenewEvent(r, duration) => RenewSources(db, r, duration, now);
    case ExpireEvent => ExpireSources(db, retry, now);
    case LeaseEvent(q, duration, lease) => LeaseSources(db, q, retry, duration, lease, now);
    case ResultEvent(r) => EnvelopeSources(db, retry, r, FailureEnvelope(0, 0, 0, 0, 0, false, 0), now);
    case FailureEvent(f) => EnvelopeSources(db, retry, ResultEnvelope(0, 0, 0, 0, 0, 0, Manifest(0, 0, 0, None, 0), 0), f, now);
    case RegisterEvent(_, _, _) =>
    case RequestEvent(_) =>
    case NoWorkEvent(_) =>
  }

  /** How one step changes the sources. */
  lemma SourcesStep(db: Tables, to: Tables, retry: Retry, e: Event, now: Time)
    requires Invariant(db, now) && Step(db, to, retry, e, now) && ByNeed(e)
    ensures to.sources == db.sources
            || (e.SourceEvent? && e.id !in db.sources && SpecOk(e.spec)
                && to.sources == db.sources[e.id := Source(e.spec, LeastFinish(db.sources), 0)])
            || (Enabled(db.sources, None) != {} && Next(db.sources, Enabled(db.sources, None)) in db.sources
                && SpecsOk(db.sources)
                && to.sources == db.sources[Next(db.sources, Enabled(db.sources, None)) :=
                                              Advanced(db.sources[Next(db.sources, Enabled(db.sources, None))])])
  {
    hide Invariant;
    hide SpecOk;
    SourceFacts(db, now);
    if e.GroupEvent? {
      hide NewRows;
      hide FreshIds;
      hide LeastFinish;
    } else if e.SourceEvent? {
      hide LeastFinish;
    } else {
      hide Step;
      QuietSources(db, to, retry, e, now);
    }
  }

  lemma StepFair(db: Tables, to: Tables, retry: Retry, e: Event, now: Time)
    requires Invariant(db, now) && Step(db, to, retry, e, now) && ByNeed(e) && Fair(db.sources)
    ensures Fair(to.sources)
  {
    hide Invariant;
    hide Step;
    hide SpecOk;
    hide LeastFinish;
    SourcesStep(db, to, retry, e, now);
    if Enabled(db.sources, None) != {} { AdvanceFair(db.sources); }
    if e.SourceEvent? && e.id !in db.sources && SpecOk(e.spec) { RegisterFair(db.sources, e.id, e.spec); }
    hide Fair;
  }

  /** For every state of every such run and all enabled sources s, t: vf(s) - vf(t) <= cost(s). */
  lemma {:induction false} RunFair(states: seq<Tables>, events: seq<Timed>, retry: Retry, start: Time, i: nat)
    requires IsRun(states, events, retry) && StartsAt(states, events, start) && i <= |events|
    requires forall k :: 0 <= k < |events| ==> ByNeed(events[k].event)
    ensures Fair(states[i].sources)
  {
    hide Step;
    hide Invariant;
    if i == 0 {
      assert states[0].sources == map[];
    } else {
      hide Fair;
      RunFair(states, events, retry, start, i - 1);
      RunKeeps(states, events, retry, start, i - 1);
      ClockAdvances(states[i - 1], TimeAt(events, start, i - 1), events[i - 1].now);
      StepFair(states[i - 1], states[i], retry, events[i - 1].event, events[i - 1].now);
    }
  }

  lemma OneMore(k: int, c: real)
    ensures (k + 1) as real * c == k as real * c + c
  {
  }

  /** A source's virtual finish has grown by the cost of every group created for it. */
  ghost predicate Paid(from: Source, to: Source) {
    from.spec == to.spec && SpecOk(from.spec)
    && to.virtualFinish == from.virtualFinish + (to.cursor - from.cursor) as real * Cost(from.spec)
  }

  lemma PaidAdvanced(from: Source, s: Source)
    requires Paid(from, s)
    ensures s.spec.weight > 0.0 && Paid(from, Advanced(s))
  {
    OneMore(s.cursor - from.cursor, Cost(from.spec));
  }

  lemma StepPaid(db: Tables, to: Tables, retry: Retry, e: Event, now: Time, from: Source, s: Id)
    requires Invariant(db, now) && Step(db, to, retry, e, now) && ByNeed(e)
    requires s in db.sources && Paid(from, db.sources[s])
    ensures s in to.sources && Paid(from, to.sources[s])
  {
    hide Invariant;
    hide Step;
    hide SpecOk;
    hide LeastFinish;
    hide Cost;
    hide Advanced;
    PaidAdvanced(from, db.sources[s]);
    SourcesStep(db, to, retry, e, now);
    hide Paid;
  }

  lemma {:induction false} RunPaid(states: seq<Tables>, events: seq<Timed>, retry: Retry, start: Time, i: nat, j: nat, s: Id)
    requires IsRun(states, events, retry) && StartsAt(states, events, start) && i <= j <= |events|
    requires forall k :: 0 <= k < |events| ==> ByNeed(events[k].event)
    requires s in states[i].sources
    ensures s in states[j].sources && Paid(states[i].sources[s], states[j].sources[s])
    decreases j - i
  {
    hide Step;
    hide Invariant;
    RunKeeps(states, events, retry, start, i);
    SourceFacts(states[i], TimeAt(events, start, i));
    hide SpecOk;
    hide Cost;
    if i < j {
      RunPaid(states, events, retry, start, i, j - 1, s);
      hide Paid;
      RunKeeps(states, events, retry, start, j - 1);
      ClockAdvances(states[j - 1], TimeAt(events, start, j - 1), events[j - 1].now);
      StepPaid(states[j - 1], states[j], retry, events[j - 1].event, events[j - 1].now, states[i].sources[s], s);
    }
  }

  /** Normalised service of `s` between two states: groups created, times their cost. */
  function Service(from: Source, to: Source): real
    requires from.spec.weight > 0.0
  {
    (to.cursor - from.cursor) as real * Cost(from.spec)
  }

  /** Sources that stood level at some state have since been served to within one group's cost of each other. */
  lemma FairService(states: seq<Tables>, events: seq<Timed>, retry: Retry, start: Time, i: nat, j: nat, s: Id, t: Id)
    requires IsRun(states, events, retry) && StartsAt(states, events, start) && i <= j <= |events|
    requires forall k :: 0 <= k < |events| ==> ByNeed(events[k].event)
    requires s in Enabled(states[i].sources, None) && t in Enabled(states[i].sources, None)
    requires states[i].sources[s].virtualFinish == states[i].sources[t].virtualFinish
    ensures s in states[j].sources && t in states[j].sources
    ensures states[i].sources[s].spec.weight > 0.0 && states[i].sources[t].spec.weight > 0.0
    ensures Service(states[i].sources[s], states[j].sources[s]) - Service(states[i].sources[t], states[j].sources[t])
            <= Cost(states[i].sources[s].spec)
  {
    RunPaid(states, events, retry, start, i, j, s);
    RunPaid(states, events, retry, start, i, j, t);
    RunFair(states, events, retry, start, j);
    hide IsRun;
    hide StartsAt;
    hide Cost;
    assert s in Enabled(states[j].sources, None) && t in Enabled(states[j].sources, None);
  }

  lemma NextLeast(sources: map<Id, Source>, among: set<Id>, s: Id)
    requires s in among && among <= sources.Keys
    ensures Next(sources, among) in among && sources[Next(sources, among)].virtualFinish <= sources[s].virtualFinish
  {
    assert IsNext(sources, among, Next(sources, among));
  }

  /** Two enabled sources registered one after the other start level. */
  lemma RegisteredTogether(db: Tables, s: Id, t: Id, first: SourceSpec, second: SourceSpec)
    requires s !in db.sources && t !in db.sources && s != t && first.enabled
    ensures var both := RegisterSource(RegisterSource(db, s, first).db, t, second).db.sources;
            both[s].virtualFinish == both[t].virtualFinish
  {
    var one := RegisterSource(db, s, first).db.sources;
    var before, after := Enabled(db.sources, None), Enabled(one, None);
    assert after == before + {s};
    NextLeast(one, after, s);
    if before != {} {
      NextLeast(db.sources, before, Next(db.sources, before));
      if Next(one, after) != s { NextLeast(db.sources, before, Next(one, after)); }
    }
  }
}
