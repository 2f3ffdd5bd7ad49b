/** Which policies, settings, sources, workers and requests are accepted, and what accepting one changes, in columns alone. */
module CatalogDecisions {
  import opened Wrappers
  import opened CoordinatorTables
  import opened CoordinatorOperations
  import opened CoordinatorInvariants
  import opened CoordinatorRuns
  import opened CoordinatorEffects

  // ---------------------------------------------------------------- policies and settings

  predicate VersionUsed(db: Tables, version: nat) {
    exists p :: p in db.policies && db.policies[p].manifest.version == version
  }

  /** A policy is recorded when its version is positive and new, its identity is new and its lineage the run's; repeating it changes nothing. */
  lemma PolicyRecorded(db: Tables, policy: Policy)
    ensures var r := RecordPolicy(db, policy); var m := policy.manifest;
            && (r.result.Success? <==>
                  && m.version > 0 && m.lineage == db.lineage
                  && if m.policyId in db.policies then db.policies[m.policyId] == policy else !VersionUsed(db, m.version))
            && (r.result.Failure? ==> r.result.error == (if m.version == 0 then BadValue else Conflict) && r.db == db)
            && (r.result.Success? ==>
                  && r.db == db.(policies := r.db.policies)
                  && r.db.policies.Keys == db.policies.Keys + {m.policyId} && r.db.policies[m.policyId] == policy
                  && forall p :: p in db.policies ==> r.db.policies[p] == db.policies[p])
  {
  }

  /** A policy becomes active when it is recorded and not older than the active one; then the outdated work is cancelled. */
  lemma PolicyActivated(db: Tables, id: Id, now: Time)
    requires RowsOk(db) && LinksOk(db) && db.active in db.policies
    ensures var r := ActivatePolicy(db, id, now);
            && (r.result.Success? <==>
                  id in db.policies && db.policies[db.active].manifest.version <= db.policies[id].manifest.version)
            && (r.result.Failure? ==> r.result.error == InvalidState && r.db == db)
            && (r.result.Success? ==> OutdatedCancelled(db.(active := id), r.db, db.settings.maxLag, now))
  {
    if id in db.policies { SameFacts(db, db.(active := id)); }
    hide RowsOk;
    hide LinksOk;
    hide OutdatedCancelled;
    hide Reconciled;
    if id in db.policies { ReconciledExactly(db.(active := id), now); }
  }

  lemma SameFacts(db: Tables, to: Tables)
    requires RowsOk(db) && LinksOk(db) && to.assignments == db.assignments && to.leases == db.leases
    ensures RowsOk(to) && LinksOk(to)
  {
  }

  /** Recorded and activated in one transaction, or neither. */
  lemma RecordedAndActivated(db: Tables, policy: Policy, now: Time)
    ensures var r := RecordAndActivatePolicy(db, policy, now); var recorded := RecordPolicy(db, policy);
            && (r.result.Success? <==> recorded.result.Success? && ActivatePolicy(recorded.db, policy.manifest.policyId, now).result.Success?)
            && (r.result.Success? ==> r.db == ActivatePolicy(recorded.db, policy.manifest.policyId, now).db)
            && (r.result.Failure? ==> r.db == db)
  {
    PolicyRecorded(db, policy);
    hide RecordPolicy;
    hide ActivatePolicy;
  }

  /** The settings are taken when neither is negative; then the work outdated under the new lag is cancelled. */
  lemma SchedulerConfigured(db: Tables, lag: int, preference: real, now: Time)
    requires RowsOk(db) && LinksOk(db) && db.active in db.policies
    ensures var r := ConfigureScheduler(db, lag, preference, now);
            && (r.result.Success? <==> lag >= 0 && preference >= 0.0)
            && (r.result.Failure? ==> r.result.error == BadValue && r.db == db)
            && (r.result.Success? ==>
                  OutdatedCancelled(db.(settings := Settings(Some(lag), Some(preference), db.settings.nextSequence)), r.db, Some(lag), now))
  {
    if lag >= 0 {
      var d := db.(settings := Settings(Some(lag), Some(preference), db.settings.nextSequence));
      SameFacts(db, d);
      ReconciledExactly(d, now);
    }
    hide RowsOk;
    hide LinksOk;
    hide OutdatedCancelled;
    hide Reconciled;
  }

  // ---------------------------------------------------------------- sources

  /** No enabled source has a lower virtual finish. */
  ghost predicate LeastOf(db: Tables, finish: real) {
    && (forall s :: s in db.sources && db.sources[s].spec.enabled ==> finish <= db.sources[s].virtualFinish)
    && ((exists s :: s in db.sources && db.sources[s].spec.enabled && db.sources[s].virtualFinish == finish)
        || (finish == 0.0 && forall s :: s in db.sources ==> !db.sources[s].spec.enabled))
  }

  /** A source starts at its first occurrence, level with the enabled source that is furthest behind. */
  lemma SourceRegistered(db: Tables, id: Id, spec: SourceSpec)
    ensures var r := RegisterSource(db, id, spec);
            && (r.result.Success? <==> id !in db.sources || db.sources[id].spec == spec)
            && (r.result.Failure? ==> r.result.error == Conflict)
            && (id in db.sources ==> r.db == db)
            && (id !in db.sources ==>
                  && r.db == db.(sources := r.db.sources) && r.db.sources.Keys == db.sources.Keys + {id}
                  && (forall s :: s in db.sources ==> r.db.sources[s] == db.sources[s])
                  && r.db.sources[id].spec == spec && r.db.sources[id].cursor == 0
                  && LeastOf(db, r.db.sources[id].virtualFinish))
  {
    LeastFinishIs(db);
    hide LeastFinish;
    hide LeastOf;
  }

  lemma LeastFinishIs(db: Tables)
    ensures LeastOf(db, LeastFinish(db.sources))
  {
    var among := Enabled(db.sources, None);
    forall s ensures s in among <==> s in db.sources && db.sources[s].spec.enabled {}
    if among != {} { assert IsNext(db.sources, among, Next(db.sources, among)); }
    hide Enabled;
  }

  // ---------------------------------------------------------------- workers

  /** A session belongs to one worker with one set of capabilities, of the run's lineage; repeating it changes nothing. */
  lemma WorkerRegistered(db: Tables, session: Id, worker: Id, capabilities: Capabilities)
    ensures var r := RegisterWorker(db, session, worker, capabilities);
            && (r.result == Success(true) <==> capabilities.lineage == db.lineage && session !in db.sessions)
            && (r.result == Success(false) <==>
                  && capabilities.lineage == db.lineage && session in db.sessions
                  && db.sessions[session].worker == worker && db.sessions[session].capabilities == capabilities)
            && (r.result.Failure? ==> r.result.error == if capabilities.lineage != db.lineage then Incompatible else Conflict)
            && (r.result != Success(true) ==> r.db == db)
            && (r.result == Success(true) ==>
                  && r.db == db.(sessions := r.db.sessions) && r.db.sessions.Keys == db.sessions.Keys + {session}
                  && r.db.sessions[session] == Session(worker, capabilities, None, None)
                  && forall s :: s in db.sessions ==> r.db.sessions[s] == db.sessions[s])
  {
  }

  // ---------------------------------------------------------------- slots

  /** An active lease of the session, with time left, whose cancellation has not been delivered. */
  predicate TakesSlot(db: Tables, session: Id, now: Time, l: Id) {
    && l in db.leases && db.leases[l].session == session && db.leases[l].state == Active
    && !db.leases[l].notice.Delivered? && now < db.leases[l].expiresAt
    && db.leases[l].assignment in db.assignments
    && (db.assignments[db.leases[l].assignment].deadline.Some? ==> now < db.assignments[db.leases[l].assignment].deadline.value)
  }

  /** At no state of a run do more leases take a slot of a session than it has slots. */
  lemma SlotsNeverOver(states: seq<Tables>, events: seq<Timed>, retry: Retry, start: Time, i: nat, s: Id, taken: set<Id>)
    requires IsRun(states, events, retry) && StartsAt(states, events, start) && i <= |events| && s in states[i].sessions
    requires forall l :: l in taken ==> TakesSlot(states[i], s, TimeAt(events, start, i), l)
    ensures |taken| <= states[i].sessions[s].capabilities.slots
  {
    SlotsRespected(states, events, retry, start, i, s);
    hide IsRun;
    hide StartsAt;
    Cardinality(taken, Live(states[i], s, TimeAt(events, start, i)));
  }

  /** Exactly the leases that take a slot. */
  ghost predicate TakenSlots(db: Tables, session: Id, now: Time, taken: set<Id>) {
    forall l :: l in taken <==> TakesSlot(db, session, now, l)
  }

  lemma LiveIs(db: Tables, session: Id, now: Time)
    ensures TakenSlots(db, session, now, Live(db, session, now))
    ensures forall taken :: TakenSlots(db, session, now, taken) ==> taken == Live(db, session, now)
  {
    forall l ensures l in Live(db, session, now) <==> TakesSlot(db, session, now, l) {}
    hide TakesSlot;
    hide Live;
  }

  /** The session has `n` slots left. */
  ghost predicate SlotsLeft(db: Tables, session: Id, now: Time, n: int)
    requires session in db.sessions
  {
    exists taken :: TakenSlots(db, session, now, taken) && n == db.sessions[session].capabilities.slots - |taken|
  }

  lemma LeftIs(db: Tables, session: Id, now: Time, n: int)
    requires session in db.sessions
    ensures SlotsLeft(db, session, now, n) <==> n == db.sessions[session].capabilities.slots - |Live(db, session, now)|
  {
    LiveIs(db, session, now);
    hide Live;
    hide TakenSlots;
  }

  // ---------------------------------------------------------------- requests

  /** The request may be recorded: its own session asks, later than before, with known policies and within its free slots. */
  ghost predicate Askable(db: Tables, q: LeaseRequest, now: Time) {
    && q.session in db.sessions && db.sessions[q.session].worker == q.worker
    && (db.sessions[q.session].lastRequest.Some? ==> db.sessions[q.session].lastRequest.value < q.sentAt)
    && (forall p :: p in q.loaded ==> p in db.policies)
    && forall n :: SlotsLeft(db, q.session, now, n) ==> q.slots <= n
  }

  /** A new request is recorded undecided exactly when it may be; the same one again is told how it was decided. */
  lemma RequestValidated(db: Tables, q: LeaseRequest, now: Time)
    ensures var r := ValidateLeaseRequest(db, q, now);
            if q.id in db.requests then
              r == Reply(db, if db.requests[q.id].digest == q then Success(db.requests[q.id].disposition) else Failure(Conflict))
            else
              && (r.result.Success? <==> Askable(db, q, now))
              && (r.result.Failure? ==> r.db == db)
              && (r.result.Success? ==>
                    && r.result.value == Undecided
                    && r.db == db.(requests := r.db.requests, sessions := r.db.sessions)
                    && r.db.requests.Keys == db.requests.Keys + {q.id} && r.db.requests[q.id] == Request(q.session, q, Undecided)
                    && (forall p :: p in db.requests ==> r.db.requests[p] == db.requests[p])
                    && r.db.sessions.Keys == db.sessions.Keys
                    && (forall s :: s in db.sessions && s != q.session ==> r.db.sessions[s] == db.sessions[s])
                    && r.db.sessions[q.session] == db.sessions[q.session].(lastRequest := Some(q.sentAt)))
  {
    hide Live;
    hide SlotsLeft;
    if q.session in db.sessions {
      var left := db.sessions[q.session].capabilities.slots - |Live(db, q.session, now)|;
      forall n: int ensures SlotsLeft(db, q.session, now, n) <==> n == left { LeftIs(db, q.session, now, n); }
      assert SlotsLeft(db, q.session, now, left);
    }
  }

  /** A request is told once that there is no work; a decided one keeps its decision. */
  lemma NoWorkMarked(db: Tables, id: Id)
    ensures var r := MarkNoWork(db, id);
            && (r.result.Failure? <==> id !in db.requests)
            && (id !in db.requests || db.requests[id].disposition != Undecided ==> r.db == db)
            && (id in db.requests && db.requests[id].disposition != Undecided ==> r.result == Success(db.requests[id].disposition))
            && (id in db.requests && db.requests[id].disposition == Undecided ==>
                  && r.result == Success(NoWork) && r.db == db.(requests := r.db.requests)
                  && r.db.requests.Keys == db.requests.Keys
                  && r.db.requests[id] == db.requests[id].(disposition := NoWork)
                  && forall p :: p in db.requests && p != id ==> r.db.requests[p] == db.requests[p])
  {
  }
}
