/** Which assignment a lease request gets, in the columns of the tables that are committed. */
module LeaseChoices {
  import opened Wrappers
  import opened CoordinatorTables
  import opened CoordinatorOperations
  import opened CoordinatorInvariants
  import opened CoordinatorGrowth
  import opened CoordinatorProgress
  import opened CoordinatorRuns
  import opened CoordinatorEffects
  import opened CatalogDecisions

  /** Waiting, available, before its deadline and not cancelled. */
  predicate Eligible(db: Tables, b: Id, now: Time) {
    && b in db.assignments && OpenRow(db.assignments[b]) && db.assignments[b].availableAt <= now
    && (db.assignments[b].deadline.Some? ==> now < db.assignments[b].deadline.value)
    && db.assignments[b].cancellation == None
  }

  /** What there was to choose from when `a` was leased: `a` and what is still eligible. */
  predicate Offered(to: Tables, a: Id, b: Id, now: Time) {
    b in to.assignments && (b == a || Eligible(to, b, now))
  }

  /** By group sequence, then index in the group, then identity. */
  predicate Earlier(db: Tables, b: Id, c: Id)
    requires b in db.assignments && c in db.assignments
    requires db.assignments[b].group in db.groups && db.assignments[c].group in db.groups
  {
    var s, t := db.groups[db.assignments[b].group].sequence, db.groups[db.assignments[c].group].sequence;
    var i, j := db.assignments[b].index, db.assignments[c].index;
    s < t || (s == t && i < j) || (s == t && i == j && b < c)
  }

  ghost predicate AllPlaced(db: Tables) {
    forall b :: b in db.assignments ==> db.assignments[b].group in db.groups
  }

  ghost predicate FirstOffered(to: Tables, a: Id, o: Id, now: Time)
    requires AllPlaced(to)
  {
    Offered(to, a, o, now) && forall b :: Offered(to, a, b, now) && b != o ==> Earlier(to, o, b)
  }

  ghost predicate SomeLoaded(to: Tables, a: Id, loaded: seq<Id>, now: Time) {
    exists c :: Offered(to, a, c, now) && to.assignments[c].policy in loaded
  }

  ghost predicate FirstLoaded(to: Tables, a: Id, loaded: seq<Id>, now: Time)
    requires AllPlaced(to) && a in to.assignments
  {
    && to.assignments[a].policy in loaded
    && forall c :: Offered(to, a, c, now) && to.assignments[c].policy in loaded && c != a ==> Earlier(to, a, c)
  }

  /**
   The first offered assignment is leased, unless it has waited less than the preference time and some offered one is
   of a loaded policy: then the first of those is.
   */
  ghost predicate ChosenWell(to: Tables, a: Id, loaded: seq<Id>, preference: real, now: Time)
    requires AllPlaced(to) && a in to.assignments
  {
    exists o ::
      && FirstOffered(to, a, o, now)
      && if now - to.assignments[o].availableAt < preference && SomeLoaded(to, a, loaded, now)
         then FirstLoaded(to, a, loaded, now) else a == o
  }

  /** The lease is the request's, starts now and lasts for the duration or until the deadline before that. */
  predicate FreshLease(to: Tables, q: LeaseRequest, l: Id, duration: real, now: Time) {
    && l in to.leases && to.leases[l].assignment in to.assignments
    && var lease, row := to.leases[l], to.assignments[to.leases[l].assignment];
       && lease.state == Active && lease.notice == NotCancelled && lease.failure == None && lease.lastRenewSentAt == None
       && lease.worker == q.worker && lease.session == q.session && lease.issuedAt == now && lease.attempt == row.attemptCount
       && lease.expiresAt <= now + duration && (row.deadline.Some? ==> lease.expiresAt <= row.deadline.value)
       && (lease.expiresAt == now + duration || row.deadline == Some(lease.expiresAt))
       && row.state == Leased && row.current == Some(l) && row.cancellation == None
       && row.availableAt <= now && (row.deadline.Some? ==> now < row.deadline.value)
  }

  // ---------------------------------------------------------------- from the selection to the committed tables

  lemma CandidateIs(d: Tables, b: Id, now: Time)
    ensures b in Candidates(d, now) <==> Eligible(d, b, now)
  {
  }

  lemma BeforeIs(d: Tables, b: Id, c: Id)
    requires b in d.assignments && c in d.assignments && d.assignments[b].group in d.groups && d.assignments[c].group in d.groups
    ensures Before(d, b, c) <==> Earlier(d, b, c)
  {
  }

  /** The tables after issuing agree with those before on what the choice depends on. */
  ghost predicate SameChoice(d: Tables, to: Tables, a: Id) {
    && to.groups == d.groups && to.assignments.Keys == d.assignments.Keys && a in d.assignments
    && (forall b :: b in d.assignments && b != a ==> to.assignments[b] == d.assignments[b])
    && to.assignments[a] == d.assignments[a].(state := Leased, attemptCount := to.assignments[a].attemptCount, current := to.assignments[a].current)
  }

  lemma OfferedWere(d: Tables, to: Tables, a: Id, b: Id, now: Time)
    requires SameChoice(d, to, a) && a in Candidates(d, now)
    ensures Offered(to, a, b, now) <==> b in Candidates(d, now)
  {
    CandidateIs(d, b, now);
    hide Candidates;
  }

  lemma EarlierWas(d: Tables, to: Tables, a: Id, b: Id, c: Id)
    requires SameChoice(d, to, a) && b in d.assignments && c in d.assignments
    requires d.assignments[b].group in d.groups && d.assignments[c].group in d.groups
    ensures Before(d, b, c) <==> Earlier(to, b, c)
  {
    BeforeIs(d, b, c);
    hide Before;
  }

  lemma ChoiceWell(d: Tables, to: Tables, a: Id, loaded: seq<Id>, preference: real, now: Time)
    requires AllPlaced(d) && AllPlaced(to) && SameChoice(d, to, a) && Candidates(d, now) != {} && Candidates(d, now) <= d.assignments.Keys
    requires a == Choice(d, Candidates(d, now), loaded, preference, now)
    ensures ChosenWell(to, a, loaded, preference, now)
  {
    var s := Candidates(d, now);
    var o := First(d, s);
    var some := Loaded(d, s, loaded);
    hide Eligible;
    forall b ensures Offered(to, a, b, now) <==> b in s { OfferedWere(d, to, a, b, now); }
    hide Offered;
    hide Candidates;
    forall b, c | b in s && c in s ensures Before(d, b, c) <==> Earlier(to, b, c) { EarlierWas(d, to, a, b, c); }
    hide Before;
    hide Earlier;
    assert FirstOffered(to, a, o, now);
    assert SomeLoaded(to, a, loaded, now) <==> some != {} by { LoadedSome(d, to, a, s, loaded, now); }
    if now - d.assignments[o].availableAt < preference && some != {} {
      assert IsFirst(d, some, a);
      assert FirstLoaded(to, a, loaded, now);
    }
  }

  lemma LoadedSome(d: Tables, to: Tables, a: Id, s: set<Id>, loaded: seq<Id>, now: Time)
    requires SameChoice(d, to, a) && s <= d.assignments.Keys && forall b :: Offered(to, a, b, now) <==> b in s
    ensures SomeLoaded(to, a, loaded, now) <==> Loaded(d, s, loaded) != {}
  {
    hide Offered;
    if SomeLoaded(to, a, loaded, now) {
      var c :| Offered(to, a, c, now) && to.assignments[c].policy in loaded;
      assert c in Loaded(d, s, loaded);
    }
    if Loaded(d, s, loaded) != {} {
      var c :| c in Loaded(d, s, loaded);
      assert Offered(to, a, c, now) && to.assignments[c].policy in loaded;
    }
  }

  lemma PlacedAll(db: Tables, now: Time)
    requires Invariant(db, now)
    ensures AllPlaced(db)
  {
    hide RowsOk;
    hide LinksOk;
    hide HeldOk;
    hide NumberedOk;
    hide DistinctOk;
    hide CountedOk;
    hide ReadyOk;
    hide KeysOk;
    hide CatalogOk;
    hide SessionsOk;
    hide StaleOk;
    hide CapacityOk;
    hide ClockOk;
  }

  lemma IssuedFresh(d: Tables, q: LeaseRequest, a: Id, l: Id, duration: real, now: Time)
    requires a in Candidates(d, now) && q.id in d.requests
    ensures var to := Issue(d, q, a, l, duration, now);
            && FreshLease(to, q, l, duration, now) && to.leases[l].assignment == a && SameChoice(d, to, a)
            && to.requests[q.id].disposition == Granted(l)
  {
  }

  /** A new lease is of the request that asked for it, and of the assignment that was its turn. */
  lemma LeaseChosen(db: Tables, q: LeaseRequest, retry: Retry, duration: real, leaseId: Id, now: Time)
    requires Invariant(db, now) && RetryOk(retry) && leaseId !in db.leases
    requires LeaseNext(db, q, retry, duration, leaseId, now).result == Success(Some(leaseId))
    ensures var to := LeaseNext(db, q, retry, duration, leaseId, now).db;
            && FreshLease(to, q, leaseId, duration, now) && AllPlaced(to) && db.settings.preference.Some?
            && ChosenWell(to, to.leases[leaseId].assignment, q.loaded, db.settings.preference.value, now)
            && q.id in to.requests && to.requests[q.id].disposition == Granted(leaseId)
  {
    hide Invariant;
    hide FreshLease;
    hide AllPlaced;
    hide ChosenWell;
    hide Live;
    hide Candidates;
    hide SameChoice;
    NotYetGranted(db, now, q.id, leaseId);
    if db.settings.maxLag.Some? {
      var d := Released(db, retry, db.settings.maxLag.value, now);
      assert d == Cancelled(Expired(db, retry, now), db.settings.maxLag.value, now);
      ReleasedRest(db, retry, db.settings.maxLag.value, now);
      ReleasedInvariant(db, retry, now);
      PlacedAll(d, now);
      CandidatesKnown(d, now);
      hide Cancelled;
      hide Expired;
      hide Released;
      assert Candidates(d, now) != {};
      var a := Choice(d, Candidates(d, now), q.loaded, db.settings.preference.value, now);
      hide Choice;
      IssuedFresh(d, q, a, leaseId, duration, now);
      var to := Issue(d, q, a, leaseId, duration, now);
      hide Issue;
      PlacedSame(d, to, a);
      ChoiceWell(d, to, a, q.loaded, db.settings.preference.value, now);
    }
  }

  /** The request is pending, and its worker, its policies and the settings are in place. */
  ghost predicate Answerable(db: Tables, q: LeaseRequest) {
    && q.id in db.requests && db.requests[q.id].disposition == Undecided
    && q.session in db.sessions && db.sessions[q.session].worker == q.worker
    && (forall p :: p in q.loaded ==> p in db.policies)
    && db.settings.maxLag.Some? && db.settings.preference.Some?
  }

  /** Nothing may be leased: the session has no slot left, or no assignment is eligible. */
  ghost predicate NothingToLease(d: Tables, session: Id, now: Time) {
    || (session in d.sessions && exists n :: SlotsLeft(d, session, now, n) && n <= 0)
    || !exists b :: Eligible(d, b, now)
  }

  /** `to` adds to `d` the new lease of assignment `a`, and nothing else. */
  ghost predicate AddsLease(d: Tables, to: Tables, q: LeaseRequest, l: Id, a: Id) {
    && l !in d.leases && to.leases.Keys == d.leases.Keys + {l} && (forall m :: m in d.leases ==> to.leases[m] == d.leases[m])
    && a in d.assignments && to.assignments.Keys == d.assignments.Keys
    && (forall b :: b in d.assignments && b != a ==> to.assignments[b] == d.assignments[b])
    && to.assignments[a] == d.assignments[a].(state := Leased, current := Some(l), attemptCount := d.assignments[a].attemptCount + 1)
    && to.requests.Keys == d.requests.Keys && q.id in d.requests
    && (forall r :: r in d.requests && r != q.id ==> to.requests[r] == d.requests[r])
    && to.requests[q.id] == d.requests[q.id].(disposition := Granted(l))
    && to == d.(leases := to.leases, assignments := to.assignments, requests := to.requests)
  }

  /** The answer to a lease request, from the tables `d` left by expiry and cancellation. */
  ghost predicate LeaseAnswered(db: Tables, d: Tables, q: LeaseRequest, leaseId: Id, now: Time, r: Reply<Option<Id>>) {
    if NothingToLease(d, q.session, now) then r == Reply(d, Success(None))
    else
      && r.result == Success(Some(leaseId)) && leaseId in r.db.leases
      && AddsLease(d, r.db, q, leaseId, r.db.leases[leaseId].assignment)
  }

  lemma NothingIs(d: Tables, session: Id, now: Time)
    requires session in d.sessions
    ensures NothingToLease(d, session, now)
            <==> |Live(d, session, now)| >= d.sessions[session].capabilities.slots || Candidates(d, now) == {}
  {
    hide Live;
    hide SlotsLeft;
    var left := d.sessions[session].capabilities.slots - |Live(d, session, now)|;
    forall n: int ensures SlotsLeft(d, session, now, n) <==> n == left { LeftIs(d, session, now, n); }
    assert SlotsLeft(d, session, now, left);
    hide Eligible;
    forall b ensures b in Candidates(d, now) <==> Eligible(d, b, now) { CandidateIs(d, b, now); }
    hide Candidates;
  }

  lemma IssueAdds(d: Tables, q: LeaseRequest, a: Id, l: Id, duration: real, now: Time)
    requires a in d.assignments && q.id in d.requests && l !in d.leases
    ensures var to := Issue(d, q, a, l, duration, now);
            l in to.leases && to.leases[l].assignment == a && AddsLease(d, to, q, l, a)
  {
  }

  /** A request is refused without effect, told again what it was told, or answered from what expiry and cancellation leave. */
  lemma LeaseDecided(db: Tables, q: LeaseRequest, retry: Retry, duration: real, leaseId: Id, now: Time)
    requires leaseId !in db.leases
    ensures var r := LeaseNext(db, q, retry, duration, leaseId, now);
            && (r.result.Success? <==>
                  duration > 0.0 && (Answerable(db, q) || (q.id in db.requests && db.requests[q.id].disposition != Undecided)))
            && (r.result.Failure? ==> r.db == db)
            && (duration > 0.0 && q.id in db.requests && db.requests[q.id].disposition != Undecided ==>
                  r == Reply(db, Success(if db.requests[q.id].disposition.Granted? then Some(db.requests[q.id].disposition.lease) else None)))
            && (duration > 0.0 && Answerable(db, q) ==>
                  LeaseAnswered(db, Cancelled(Expired(db, retry, now), db.settings.maxLag.value, now), q, leaseId, now, r))
  {
    hide Live;
    hide Candidates;
    hide NothingToLease;
    hide AddsLease;
    hide Choice;
    hide Issue;
    if Answerable(db, q) {
      var d := Released(db, retry, db.settings.maxLag.value, now);
      assert d == Cancelled(Expired(db, retry, now), db.settings.maxLag.value, now);
      ReleasedRest(db, retry, db.settings.maxLag.value, now);
      hide Released;
      hide Cancelled;
      hide Expired;
      NothingIs(d, q.session, now);
      CandidatesKnown(d, now);
      if Candidates(d, now) != {} {
        IssueAdds(d, q, Choice(d, Candidates(d, now), q.loaded, db.settings.preference.value, now), leaseId, duration, now);
      }
    }
  }

  lemma CandidatesKnown(d: Tables, now: Time)
    ensures Candidates(d, now) <= d.assignments.Keys
  {
  }

  /** A new lease is never for work outdated under the configured lag. */
  lemma LeaseUpToDate(db: Tables, q: LeaseRequest, retry: Retry, duration: real, leaseId: Id, now: Time)
    requires Invariant(db, now) && RetryOk(retry) && leaseId !in db.leases
    requires LeaseNext(db, q, retry, duration, leaseId, now).result == Success(Some(leaseId))
    ensures var to := LeaseNext(db, q, retry, duration, leaseId, now).db;
            && leaseId in to.leases && to.leases[leaseId].assignment in to.assignments && db.settings.maxLag.Some?
            && !Outdated(to, db.settings.maxLag.value, to.leases[leaseId].assignment)
            && to.leases[leaseId].attempt <= to.assignments[to.leases[leaseId].assignment].maxAttempts
  {
    LeasedWithinLag(db, q, retry, duration, leaseId, now);
    hide Invariant;
    hide LeaseNext;
  }

  lemma PlacedSame(d: Tables, to: Tables, a: Id)
    requires AllPlaced(d) && SameChoice(d, to, a)
    ensures AllPlaced(to)
  {
  }

  lemma NotYetGranted(db: Tables, now: Time, r: Id, l: Id)
    requires Invariant(db, now) && l !in db.leases
    ensures !(r in db.requests && db.requests[r].disposition == Granted(l))
  {
  }

  // ---------------------------------------------------------------- when a group is created for a request

  /** The request still waits, its session has a slot left, and no assignment is eligible. */
  ghost predicate NeedsGroup(d: Tables, q: LeaseRequest, now: Time) {
    && q.id in d.requests && d.requests[q.id].disposition == Undecided
    && q.session in d.sessions && d.sessions[q.session].worker == q.worker
    && (exists n :: SlotsLeft(d, q.session, now, n) && n > 0)
    && !exists b :: Eligible(d, b, now)
  }

  lemma NeedIs(d: Tables, q: LeaseRequest, now: Time)
    ensures CanGenerate(d, q, now) <==> NeedsGroup(d, q, now)
  {
    hide Live;
    hide SlotsLeft;
    if q.session in d.sessions {
      var left := d.sessions[q.session].capabilities.slots - |Live(d, q.session, now)|;
      forall n: int ensures SlotsLeft(d, q.session, now, n) <==> n == left { LeftIs(d, q.session, now, n); }
      assert SlotsLeft(d, q.session, now, left);
    }
    hide Eligible;
    forall b ensures b in Candidates(d, now) <==> Eligible(d, b, now) { CandidateIs(d, b, now); }
    hide Candidates;
  }

  /** The request is leased to at once, or only if that leaves it in need is a group created by need and then leased from. */
  lemma LeasedOrCreated(db: Tables, q: LeaseRequest, retry: Retry, duration: real, made: Identities, clock: nat -> Time)
    requires forall s :: s in db.sources ==> SpecOk(db.sources[s].spec)
    ensures var leased := LeaseNext(db, q, retry, duration, made.first, clock(0));
            && leased.db.sources == db.sources
            && LeaseOrCreate(db, q, retry, duration, made, clock)
               == if leased.result != Success(None) || !NeedsGroup(leased.db, q, clock(1)) then leased
                  else
                    var created := CreateNextGroup(leased.db, None, made.ids, clock(2));
                    if created.result.Failure? || created.result == Success(None) then created
                    else LeaseNext(created.db, q, retry, duration, made.second, clock(3))
  {
    hide LeaseNext;
    hide CreateNextGroup;
    hide NeedsGroup;
    hide CanGenerate;
    hide SpecOk;
    LeaseNextSources(db, q, retry, duration, made.first, clock(0));
    NeedIs(LeaseNext(db, q, retry, duration, made.first, clock(0)).db, q, clock(1));
  }
}
