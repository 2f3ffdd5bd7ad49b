/** Runs of the coordinator together with the result processor, which shares its database. */
module LedgerRuns {
  import opened Wrappers
  import opened CoordinatorTables
  import opened CoordinatorOperations
  import opened CoordinatorInvariants
  import Coordinator = CoordinatorRuns
  import opened TrainingLedger
  import opened BatchSelection
  import opened BatchEmission

  /** How far the emission loop has got with its pass; each reading is a database call of its own. */
  datatype Processor =
    | Resting
    | HasListing(listing: seq<Key>)
    | HasVersion(listing: seq<Key>, active: nat)
    | HasWindow(listing: seq<Key>, window: Window)

  datatype State = State(db: Tables, ledger: Ledger, processor: Processor)

  datatype Action =
    | Coordinate(event: Coordinator.Event)
    | Process(group: Id, input: nat, rollouts: seq<RolloutPayload>)
    | List(waiting: seq<Key>)
    | ReadVersion
    | ReadLag
    | Act(pass: Pass)
    | Rest

  datatype Timed = Timed(action: Action, now: Time)

  // ---------------------------------------------------------------- the steps

  predicate Known(db: Tables, g: Id) {
    g in db.groups && db.groups[g].policy in db.policies
  }

  /** The artifact `_process_group` makes of group `g`: it names the group and carries the manifest it ran with. */
  function Made(db: Tables, g: Id, input: nat, rollouts: seq<RolloutPayload>): Processed
    requires Known(db, g)
  {
    var manifest := db.policies[db.groups[g].policy].manifest;
    Processed(input, db.groups[g].sequence, Payload(g, manifest, manifest.adapter, rollouts))
  }

  /** Its samples are stamped with that policy; an eval group has no training rollouts. */
  ghost predicate MadeOk(db: Tables, g: Id, processed: Processed) {
    && Known(db, g)
    && processed == Made(db, g, processed.input, processed.payload.rollouts) && Stamped(processed.payload)
    && (db.groups[g].kind.Eval? ==> processed.payload.rollouts == [])
  }

  /**
   Coordinator transactions may fall between any two steps of the processor, which is alone in writing the
   ledger. `Rest` ends the loop, and also stands for a restart, which forgets the pass.
   */
  ghost predicate Step(s: State, to: State, retry: Retry, limit: Limit, a: Action, now: Time) {
    match a
    case Coordinate(event) => Coordinator.Step(s.db, to.db, retry, event, now) && to == s.(db := to.db)
    case Process(g, input, rollouts) =>
      && s.processor.Resting? && Known(s.db, g) && MadeOk(s.db, g, Made(s.db, g, input, rollouts))
      && to == s.(ledger := RecordGroup(s.ledger, Made(s.db, g, input, rollouts), s.db.groups[g].state.Ready?).ledger)
    case List(waiting) =>
      s.processor.Resting? && Listed(s.ledger, waiting, Waits(s.ledger)) && to == s.(processor := HasListing(waiting))
    case ReadVersion =>
      s.processor.HasListing? && to == s.(processor := HasVersion(s.processor.listing, Version(s.db)))
    case ReadLag =>
      && s.processor.HasVersion?
      && to == s.(processor := HasWindow(s.processor.listing, Window(s.processor.active, s.db.settings.maxLag)))
    case Act(p) =>
      && s.processor == HasWindow(p.listing, p.window) && p.before == s.ledger && Acts(p, limit)
      && to == State(s.db, After(p), Resting)
    case Rest => to == s.(processor := Resting)
  }

  // ---------------------------------------------------------------- what every state satisfies

  /** Each recorded group is a ready group of the coordinator, with the policy it was leased with. */
  ghost predicate Drawn(db: Tables, s: Ledger) {
    forall g :: g in s.groups ==> MadeOk(db, g, s.groups[g]) && g in db.groups && db.groups[g].state.Ready?
  }

  /** Batch `t` holds exactly the samples of the rollouts placed in it, in order, all of identity `x`. */
  ghost predicate BatchOf(s: Ledger, t: nat, ms: seq<Key>, x: Identity) {
    && t in s.batches && s.batches[t] == Batch(Samples(s, ms), t) && OfOne(s, ms, x)
    && (forall i :: 0 <= i < |ms| ==> ms[i] in s.places && s.places[ms[i]] == Batched(t, i))
    && (forall k :: k in s.places && s.places[k].Batched? && s.places[k].step == t ==> s.places[k].ordinal < |ms|)
  }

  ghost predicate BatchesOk(s: Ledger) {
    forall t :: t in s.batches ==> exists ms, x :: BatchOf(s, t, ms, x)
  }

  /** What the processor has listed is still what waits. */
  ghost predicate ListingOk(s: State) {
    !s.processor.Resting? ==> Listed(s.ledger, s.processor.listing, Waits(s.ledger))
  }

  ghost predicate StateOk(s: State, now: Time) {
    Invariant(s.db, now) && LedgerOk(s.ledger) && Drawn(s.db, s.ledger) && BatchesOk(s.ledger) && ListingOk(s)
  }

  /** What any later ledger keeps of an earlier one. */
  ghost predicate LedgerEvolves(s: Ledger, to: Ledger) {
    && (forall g :: g in s.groups ==> g in to.groups && to.groups[g] == s.groups[g])
    && (forall k :: k in s.places ==> k in to.places && (!s.places[k].Unbatched? ==> to.places[k] == s.places[k]))
    && (forall t :: t in s.batches ==> t in to.batches && to.batches[t] == s.batches[t])
  }

  lemma LedgerEvolvesTransitive(a: Ledger, b: Ledger, c: Ledger)
    requires LedgerEvolves(a, b) && LedgerEvolves(b, c)
    ensures LedgerEvolves(a, c)
  {
  }

  // ---------------------------------------------------------------- one policy per version

  /** Policy versions are unique in the database, so payloads of one version carry one policy and adapter. */
  lemma DrawnPolicies(db: Tables, s: Ledger)
    requires CatalogOk(db) && Drawn(db, s)
    ensures PoliciesOk(s)
  {
    hide SpecOk;
    hide Stamped;
    forall g, h | g in s.groups && h in s.groups && s.groups[g].payload.policy.version == s.groups[h].payload.policy.version
      ensures s.groups[g].payload.policy == s.groups[h].payload.policy && s.groups[g].payload.adapter == s.groups[h].payload.adapter
    {
      assert MadeOk(db, g, s.groups[g]) && MadeOk(db, h, s.groups[h]);
    }
  }

  lemma MadeCarries(db: Tables, to: Tables, g: Id, processed: Processed)
    requires OthersEvolve(db, to) && MadeOk(db, g, processed) && g in db.groups
    ensures MadeOk(to, g, processed) && g in to.groups && (db.groups[g].state.Ready? ==> to.groups[g].state.Ready?)
  {
    hide Stamped;
    hide Version;
    assert GroupEvolves(db.groups[g], to.groups[g]);
  }

  /** A recorded group is a ready one, with its sequence number, its policy's manifest and adapter, and no rollouts for eval. */
  lemma RecordedAsMade(db: Tables, s: Ledger, g: Id)
    requires Drawn(db, s) && g in s.groups
    ensures g in db.groups && db.groups[g].state == Ready && db.groups[g].policy in db.policies
    ensures var manifest, payload := db.policies[db.groups[g].policy].manifest, s.groups[g].payload;
            && s.groups[g].sequence == db.groups[g].sequence
            && payload.group == g && payload.policy == manifest && payload.adapter == manifest.adapter
            && (db.groups[g].kind == Eval ==> payload.rollouts == [])
            && forall i, j :: 0 <= i < |payload.rollouts| && 0 <= j < |payload.rollouts[i].samples| ==>
                 payload.rollouts[i].samples[j].policy == manifest
  {
  }

  /** The coordinator's own steps never change what a recorded group was drawn from. */
  lemma DrawnCarries(db: Tables, to: Tables, s: Ledger)
    requires OthersEvolve(db, to) && Drawn(db, s)
    ensures Drawn(to, s)
  {
    hide OthersEvolve;
    hide MadeOk;
    forall g | g in s.groups ensures MadeOk(to, g, s.groups[g]) && g in to.groups && to.groups[g].state.Ready? {
      MadeCarries(db, to, g, s.groups[g]);
    }
  }

  // ---------------------------------------------------------------- what a batch holds

  lemma {:induction false} SamplesKept(s: Ledger, to: Ledger, ms: seq<Key>)
    requires LedgerEvolves(s, to) && forall k :: k in ms ==> k.group in s.groups
    ensures Samples(to, ms) == Samples(s, ms)
  {
    if ms != [] {
      var rest, last := ms[..|ms| - 1], ms[|ms| - 1];
      assert last in ms;
      SamplesKept(s, to, rest);
    }
  }

  /** No rollout was put into batch `t`. */
  ghost predicate Closed(s: Ledger, to: Ledger, t: nat) {
    forall k :: k in to.places && to.places[k].Batched? && to.places[k].step == t ==> k in s.places && s.places[k] == to.places[k]
  }

  ghost predicate AllClosed(s: Ledger, to: Ledger) {
    forall t :: t in s.batches ==> Closed(s, to, t)
  }

  lemma BatchKept(s: Ledger, to: Ledger, t: nat, ms: seq<Key>, x: Identity)
    requires PlacesOk(s) && LedgerEvolves(s, to) && BatchOf(s, t, ms, x) && Closed(s, to, t)
    ensures BatchOf(to, t, ms, x)
  {
    forall k | k in ms ensures k.group in s.groups && IdentityOf(to, k) == x {
      var i :| 0 <= i < |ms| && ms[i] == k;
      assert ms[i] in s.places;
    }
    SamplesKept(s, to, ms);
    hide Samples;
    hide IdentityOf;
    hide PlacesOk;
  }

  lemma BatchesKept(s: Ledger, to: Ledger)
    requires PlacesOk(s) && LedgerEvolves(s, to) && BatchesOk(s) && AllClosed(s, to)
    ensures to.batches == s.batches ==> BatchesOk(to)
    ensures forall step, ms, x :: to.batches.Keys == s.batches.Keys + {step} && BatchOf(to, step, ms, x) ==> BatchesOk(to)
  {
    hide PlacesOk;
    hide LedgerEvolves;
    hide Closed;
    hide BatchOf;
    forall t | t in s.batches ensures exists ms, x :: BatchOf(to, t, ms, x) {
      var ms, x :| BatchOf(s, t, ms, x);
      BatchKept(s, to, t, ms, x);
    }
  }

  // ---------------------------------------------------------------- every step keeps it

  lemma CoordinateKeeps(s: State, to: State, retry: Retry, event: Coordinator.Event, now: Time)
    requires StateOk(s, now) && RetryOk(retry) && Coordinator.Step(s.db, to.db, retry, event, now) && to == s.(db := to.db)
    ensures StateOk(to, now)
  {
    hide Listed;
    hide Invariant;
    hide Coordinator.Step;
    hide LedgerOk;
    hide Drawn;
    hide BatchesOk;
    hide RowsEvolve;
    hide LeasesEvolve;
    hide OthersEvolve;
    Coordinator.StepKeeps(s.db, to.db, retry, event, now);
    DrawnCarries(s.db, to.db, s.ledger);
  }

  lemma ProcessLedger(s: Ledger, processed: Processed, ready: bool)
    requires LedgerOk(s) && BatchesOk(s)
    ensures var to := RecordGroup(s, processed, ready).ledger; LedgerOk(to) && BatchesOk(to) && LedgerEvolves(s, to)
  {
    var to := RecordGroup(s, processed, ready).ledger;
    assert PlacesOk(s);
    hide LedgerOk;
    hide PlacesOk;
    hide BatchesOk;
    hide BatchOf;
    hide Waits;
    hide KeysOf;
    hide NewPlaces;
    RecordGroupKeeps(s, processed, ready);
    if to != s {
      assert to.batches == s.batches;
      hide RecordGroup;
      assert AllClosed(s, to);
      hide AllClosed;
      BatchesKept(s, to);
    }
  }

  lemma ProcessDrawn(db: Tables, s: Ledger, processed: Processed)
    requires Drawn(db, s) && MadeOk(db, processed.payload.group, processed) && processed.payload.group in db.groups
    ensures Drawn(db, RecordGroup(s, processed, db.groups[processed.payload.group].state.Ready?).ledger)
  {
    hide MadeOk;
    hide NewPlaces;
  }

  lemma ExtendsEvolves(s: Ledger, to: Ledger)
    requires Extends(s, to)
    ensures LedgerEvolves(s, to)
  {
    assert forall k :: k in s.places <==> k in to.places;
  }

  lemma DropClosed(s: Ledger, members: seq<Key>, t: nat)
    requires Available(s, members)
    ensures Closed(s, s.(places := WithPlaces(s.places, members, None)), t)
  {
    AvailablePlaces(s, members, None);
    var to := WithPlaces(s.places, members, None);
    hide WithPlaces;
    hide Available;
    forall k | k in members ensures k in to && to[k].Discarded? {
      var i :| 0 <= i < |members| && members[i] == k;
      assert to[members[i]] == PlaceAt(None, i);
    }
  }

  lemma DropLedger(p: Pass, limit: Limit)
    requires LedgerOk(p.before) && BatchesOk(p.before) && PassOk(p, limit) && !p.deed.EmitBatch?
    ensures BatchesOk(After(p))
  {
    var s, to := p.before, After(p);
    assert PlacesOk(s);
    hide LedgerOk;
    hide PlacesOk;
    hide BatchesOk;
    hide BatchOf;
    hide Available;
    hide WithPlaces;
    hide Waits;
    hide Closed;
    hide LedgerEvolves;
    hide Acts;
    hide Listed;
    MembersAvailable(p, limit);
    hide PassOk;
    if p.members != [] {
      DiscardExtends(s, p.members);
      hide Extends;
      ExtendsEvolves(s, to);
      forall t | t in s.batches ensures Closed(s, to, t) {
        DropClosed(s, p.members, t);
      }
      BatchesKept(s, to);
    }
  }

  /** The batch just recorded. */
  lemma EmittedBatch(s: Ledger, to: Ledger, step: nat, members: seq<Key>, x: Identity)
    requires PlacesOk(s) && BatchedOk(s) && StepsOk(s) && step == |s.batches| + 1 && Available(s, members) && OfOne(s, members, x)
    requires to.groups == s.groups && to.batches == s.batches[step := Batch(Samples(s, members), step)]
    requires MovedTo(s.places, to.places, members, Some(step)) && LedgerEvolves(s, to)
    ensures BatchOf(to, step, members, x)
    ensures AllClosed(s, to)
  {
    assert step !in s.batches;
    forall k | k in to.places && to.places[k].Batched?
      ensures k in s.places
      ensures to.places[k].step == step ==> to.places[k].ordinal < |members|
      ensures to.places[k].step != step ==> s.places[k] == to.places[k]
    {
      NewBatchPlace(s, to, step, members, k);
    }
    forall k | k in members ensures k.group in s.groups && IdentityOf(to, k) == x {
      assert k in Waits(s);
    }
    hide PlacesOk;
    hide BatchedOk;
    hide StepsOk;
    hide Available;
    SamplesKept(s, to, members);
    hide Samples;
    hide IdentityOf;
    hide LedgerEvolves;
  }

  lemma EmitRecords(s: Ledger, batch: Batch, members: seq<Key>, to: Ledger)
    requires LedgerOk(s) && Available(s, members) && to == RecordBatch(s, batch, members).ledger && to != s
    ensures batch.step == |s.batches| + 1 && members != []
    ensures to.groups == s.groups && to.batches == s.batches[batch.step := batch]
    ensures MovedTo(s.places, to.places, members, Some(batch.step))
    ensures LedgerEvolves(s, to)
  {
    NextStepIs(s, batch.step);
    AvailablePlaces(s, members, Some(batch.step));
    RecordExtends(s, batch.step, batch, members);
    hide WithPlaces;
    ExtendsEvolves(s, to);
    hide MovedTo;
    hide Available;
  }

  lemma EmitLedger(p: Pass, limit: Limit, x: Identity)
    requires LedgerOk(p.before) && BatchesOk(p.before) && Available(p.before, p.members) && OfOne(p.before, p.members, x)
    requires p.deed.EmitBatch? && After(p) != p.before
    ensures BatchesOk(After(p))
  {
    var s, to := p.before, After(p);
    assert PlacesOk(s) && BatchedOk(s) && StepsOk(s);
    hide LedgerOk;
    hide PlacesOk;
    hide BatchedOk;
    hide StepsOk;
    hide BatchesOk;
    hide BatchOf;
    hide RecordBatch;
    hide Available;
    hide OfOne;
    hide Samples;
    hide MovedTo;
    hide LedgerEvolves;
    hide AllClosed;
    EmitRecords(s, NewBatch(p), p.members, to);
    EmittedBatch(s, to, StepOf(p), p.members, x);
    BatchesKept(s, to);
  }

  lemma ActKeeps(p: Pass, limit: Limit)
    requires LedgerOk(p.before) && BatchesOk(p.before) && PassOk(p, limit)
    ensures LedgerOk(After(p)) && BatchesOk(After(p)) && LedgerEvolves(p.before, After(p)) && After(p).groups == p.before.groups
  {
    PassEffect(p, limit);
    ExtendsEvolves(p.before, After(p));
    hide LedgerOk;
    hide BatchesOk;
    hide After;
    hide Stands;
    hide LedgerEvolves;
    hide OnlyMembers;
    hide Waits;
    hide Listed;
    hide Available;
    hide OfOne;
    if p.deed.EmitBatch? {
      hide Selected;
      hide IsStale;
      ChosenAvailable(p.before, limit, p.listing, p.members);
      var x :| OfOne(p.before, p.members, x);
      EmitLedger(p, limit, x);
    } else {
      hide Acts;
      DropLedger(p, limit);
    }
  }

  lemma SameEvolves(s: Ledger)
    ensures LedgerEvolves(s, s)
  {
  }

  /** The guard of a pass and the listing it still has make it a pass in the sense of the loop. */
  lemma ActIsPass(s: State, now: Time, p: Pass, limit: Limit)
    requires StateOk(s, now) && s.processor == HasWindow(p.listing, p.window) && p.before == s.ledger && Acts(p, limit)
    ensures PassOk(p, limit) && LedgerOk(p.before) && BatchesOk(p.before)
  {
    hide Invariant;
    hide LedgerOk;
    hide BatchesOk;
    hide Drawn;
    hide Acts;
    hide Listed;
  }

  lemma DrawnSame(db: Tables, s: Ledger, to: Ledger)
    requires Drawn(db, s) && to.groups == s.groups
    ensures Drawn(db, to)
  {
    hide MadeOk;
  }

  lemma StepKeeps(s: State, to: State, retry: Retry, limit: Limit, a: Action, now: Time)
    requires StateOk(s, now) && RetryOk(retry) && Step(s, to, retry, limit, a, now)
    ensures StateOk(to, now) && LedgerEvolves(s.ledger, to.ledger)
  {
    SameEvolves(s.ledger);
    hide Invariant;
    hide LedgerOk;
    hide BatchesOk;
    hide Coordinator.Step;
    hide MadeOk;
    hide Acts;
    hide After;
    hide RecordGroup;
    hide LedgerEvolves;
    hide Drawn;
    hide Listed;
    hide Version;
    match a
    case Coordinate(event) => CoordinateKeeps(s, to, retry, event, now);
    case Process(g, input, rollouts) =>
      var processed := Made(s.db, g, input, rollouts);
      ProcessLedger(s.ledger, processed, s.db.groups[g].state.Ready?);
      ProcessDrawn(s.db, s.ledger, processed);
    case Act(p) =>
      ActIsPass(s, now, p, limit);
      ActKeeps(p, limit);
      DrawnSame(s.db, s.ledger, to.ledger);
    case List(_) =>
    case ReadVersion =>
    case ReadLag =>
    case Rest =>
  }

  // ---------------------------------------------------------------- every run

  ghost predicate IsRun(states: seq<State>, events: seq<Timed>, retry: Retry, limit: Limit) {
    && |states| == |events| + 1 && RetryOk(retry)
    && (forall i :: 0 <= i < |events| ==> Step(states[i], states[i + 1], retry, limit, events[i].action, events[i].now))
    && (forall i, j :: 0 <= i < j < |events| ==> events[i].now <= events[j].now)
  }

  /** From an initialized database with nothing processed. */
  ghost predicate StartsAt(states: seq<State>, events: seq<Timed>, start: Time) {
    && |states| > 0 && (exists base :: states[0] == State(Coordinator.Initialized(base), EMPTY, Resting))
    && (events != [] ==> start <= events[0].now)
  }

  function TimeAt(events: seq<Timed>, start: Time, i: nat): Time
    requires i <= |events|
  {
    if i == 0 then start else events[i - 1].now
  }

  lemma StartOk(base: Policy, now: Time)
    ensures StateOk(State(Coordinator.Initialized(base), EMPTY, Resting), now)
  {
    Coordinator.InitializedInvariant(base, now);
    EmptyOk();
    hide Invariant;
    hide LedgerOk;
  }

  lemma LaterOk(s: State, earlier: Time, now: Time)
    requires StateOk(s, earlier) && earlier <= now
    ensures StateOk(s, now)
  {
    hide Invariant;
    hide LedgerOk;
    hide Drawn;
    hide BatchesOk;
    hide ListingOk;
    ClockAdvances(s.db, earlier, now);
  }

  /** Every state of every run satisfies the coordinator's invariant and the ledger's, without assumptions on payloads. */
  lemma {:induction false} LedgerRunKeeps(states: seq<State>, events: seq<Timed>, retry: Retry, limit: Limit, start: Time, i: nat)
    requires IsRun(states, events, retry, limit) && StartsAt(states, events, start) && i <= |events|
    ensures StateOk(states[i], TimeAt(events, start, i))
    decreases i
  {
    hide Step;
    hide StateOk;
    if i == 0 {
      var base :| states[0] == State(Coordinator.Initialized(base), EMPTY, Resting);
      StartOk(base, start);
    } else {
      LedgerRunKeeps(states, events, retry, limit, start, i - 1);
      LaterOk(states[i - 1], TimeAt(events, start, i - 1), events[i - 1].now);
      StepKeeps(states[i - 1], states[i], retry, limit, events[i - 1].action, events[i - 1].now);
    }
  }

  /** A recorded group, a batch and the place of a rollout that no longer waits are final. */
  lemma {:induction false} LedgerRunEvolves(
      states: seq<State>, events: seq<Timed>, retry: Retry, limit: Limit, start: Time, i: nat, j: nat)
    requires IsRun(states, events, retry, limit) && StartsAt(states, events, start) && i <= j <= |events|
    ensures LedgerEvolves(states[i].ledger, states[j].ledger)
    decreases j - i
  {
    hide Step;
    hide StateOk;
    hide LedgerEvolves;
    if i == j {
      SameEvolves(states[i].ledger);
    } else {
      LedgerRunEvolves(states, events, retry, limit, start, i, j - 1);
      LedgerRunKeeps(states, events, retry, limit, start, j - 1);
      LaterOk(states[j - 1], TimeAt(events, start, j - 1), events[j - 1].now);
      StepKeeps(states[j - 1], states[j], retry, limit, events[j - 1].action, events[j - 1].now);
      LedgerEvolvesTransitive(states[i].ledger, states[j - 1].ledger, states[j].ledger);
    }
  }

  /** The policies of a batch and of the rollouts in it, one for all. */
  ghost predicate OnePolicyBatch(b: Batch) {
    forall i, j :: 0 <= i < |b.examples| && 0 <= j < |b.examples| ==> b.examples[i].policy == b.examples[j].policy
  }

  lemma StatePolicies(s: State, now: Time)
    requires StateOk(s, now)
    ensures LedgerOk(s.ledger) && PlacesOk(s.ledger) && PoliciesOk(s.ledger)
  {
    hide Drawn;
    hide BatchesOk;
    hide StaleOk;
    hide CapacityOk;
    hide ClockOk;
    hide RowsOk;
    hide LinksOk;
    hide HeldOk;
    hide NumberedOk;
    hide MembersOk;
    hide ReadyOk;
    hide KeysOk;
    hide SessionsOk;
    hide CatalogOk;
    hide PlacesOk;
    hide BatchedOk;
    hide OrdinalsOk;
    hide StepsOk;
    hide NamedOk;
    hide PoliciesOk;
    DrawnPolicies(s.db, s.ledger);
  }

  /** At every moment each batch holds the samples of its rollouts, each once and in order, all of one policy. */
  lemma BatchesExact(states: seq<State>, events: seq<Timed>, retry: Retry, limit: Limit, start: Time, i: nat, t: nat)
    requires IsRun(states, events, retry, limit) && StartsAt(states, events, start) && i <= |events|
    requires t in states[i].ledger.batches
    ensures exists ms, x :: BatchOf(states[i].ledger, t, ms, x)
    ensures OnePolicyBatch(states[i].ledger.batches[t])
  {
    hide Step;
    LedgerRunKeeps(states, events, retry, limit, start, i);
    StatePolicies(states[i], TimeAt(events, start, i));
    hide LedgerOk;
    hide Invariant;
    hide Drawn;
    var ms, x :| BatchOf(states[i].ledger, t, ms, x);
    BatchPolicy(states[i].ledger, t, ms, x);
    hide PlacesOk;
    hide PoliciesOk;
    hide BatchOf;
  }

  lemma BatchPolicy(s: Ledger, t: nat, ms: seq<Key>, x: Identity)
    requires PlacesOk(s) && PoliciesOk(s) && BatchOf(s, t, ms, x)
    ensures OnePolicyBatch(s.batches[t])
  {
    hide PlacesOk;
    hide PoliciesOk;
    hide IdentityOf;
    forall k | k in ms ensures k in s.places {
      var i :| 0 <= i < |ms| && ms[i] == k;
      assert ms[i] in s.places;
    }
    OnePolicy(s, ms, x);
    hide Samples;
  }

  // ---------------------------------------------------------------- what a pass has read

  function WindowOf(db: Tables): Window {
    Window(Version(db), db.settings.maxLag)
  }

  ghost predicate LedgerSince(states: seq<State>, from: nat, to: nat) {
    from <= to < |states| && forall m :: from <= m <= to ==> states[m].ledger == states[to].ledger
  }

  ghost predicate VersionReadAt(states: seq<State>, events: seq<Timed>, v: nat, i: nat, active: nat) {
    && v < i < |states| && v < |events| && events[v].action.ReadVersion? && active == Version(states[v].db)
    && LedgerSince(states, v, i)
  }

  /** Step `v` read the active version of `w`, step `l` its lag limit, and the ledger is at `i` what it was at `v`. */
  ghost predicate ReadAt(states: seq<State>, events: seq<Timed>, v: nat, l: nat, i: nat, w: Window) {
    && VersionReadAt(states, events, v, i, w.active)
    && v < l < i && l < |events| && events[l].action.ReadLag? && w.lag == states[l].db.settings.maxLag
  }

  lemma ReadingStep(s: State, to: State, retry: Retry, limit: Limit, a: Action, now: Time)
    requires Step(s, to, retry, limit, a, now)
    ensures to.processor.HasVersion? ==>
      to.ledger == s.ledger && if a.ReadVersion? then to.processor.active == Version(s.db) else s.processor == to.processor
    ensures to.processor.HasWindow? ==>
      && to.ledger == s.ledger
      && if a.ReadLag? then s.processor.HasVersion? && to.processor.window == Window(s.processor.active, s.db.settings.maxLag)
         else s.processor == to.processor
  {
    hide Coordinator.Step;
    hide MadeOk;
    hide Acts;
    hide After;
    hide RecordGroup;
    hide Listed;
    hide Version;
  }

  lemma {:induction false} VersionRead(states: seq<State>, events: seq<Timed>, retry: Retry, limit: Limit, i: nat)
    requires IsRun(states, events, retry, limit) && i < |states| && states[0].processor.Resting? && states[i].processor.HasVersion?
    ensures exists v: nat :: VersionReadAt(states, events, v, i, states[i].processor.active)
    decreases i
  {
    hide Step;
    hide Version;
    if i > 0 {
      ReadingStep(states[i - 1], states[i], retry, limit, events[i - 1].action, events[i - 1].now);
      if events[i - 1].action.ReadVersion? {
        assert VersionReadAt(states, events, i - 1, i, states[i].processor.active);
      } else {
        VersionRead(states, events, retry, limit, i - 1);
        var v :| VersionReadAt(states, events, v, i - 1, states[i - 1].processor.active);
        assert VersionReadAt(states, events, v, i, states[i].processor.active);
      }
    }
  }

  /** The window a pass acts on is the active version of one earlier state and the limit of another, read in that order. */
  lemma {:induction false} WindowRead(states: seq<State>, events: seq<Timed>, retry: Retry, limit: Limit, i: nat)
    requires IsRun(states, events, retry, limit) && i < |states| && states[0].processor.Resting? && states[i].processor.HasWindow?
    ensures exists v: nat, l: nat :: ReadAt(states, events, v, l, i, states[i].processor.window)
    decreases i
  {
    hide Step;
    hide Version;
    if i > 0 {
      ReadingStep(states[i - 1], states[i], retry, limit, events[i - 1].action, events[i - 1].now);
      if events[i - 1].action.ReadLag? {
        VersionRead(states, events, retry, limit, i - 1);
        var v :| VersionReadAt(states, events, v, i - 1, states[i - 1].processor.active);
        assert ReadAt(states, events, v, i - 1, i, states[i].processor.window);
      } else {
        WindowRead(states, events, retry, limit, i - 1);
        var v, l :| ReadAt(states, events, v, l, i - 1, states[i - 1].processor.window);
        assert ReadAt(states, events, v, l, i, states[i].processor.window);
      }
    }
  }

  // ---------------------------------------------------------------- what the processor does over a run

  /** Step `i` of the run is the pass `p`. */
  ghost predicate ActsAt(states: seq<State>, events: seq<Timed>, limit: Limit, i: nat, p: Pass) {
    && i < |events| && i + 1 < |states| && events[i].action == Act(p) && p.before == states[i].ledger
    && states[i + 1].ledger == After(p) && PassOk(p, limit)
  }

  /** Each pass of a run is one of the loop, on the readings of two earlier states. */
  lemma ActReads(states: seq<State>, events: seq<Timed>, retry: Retry, limit: Limit, start: Time, i: nat, p: Pass)
    requires IsRun(states, events, retry, limit) && StartsAt(states, events, start) && i < |events| && events[i].action == Act(p)
    ensures ActsAt(states, events, limit, i, p) && (exists v: nat, l: nat :: ReadAt(states, events, v, l, i, p.window))
  {
    assert Step(states[i], states[i + 1], retry, limit, Act(p), events[i].now);
    LedgerRunKeeps(states, events, retry, limit, start, i);
    ActIsPass(states[i], TimeAt(events, start, i), p, limit);
    WindowRead(states, events, retry, limit, i);
    hide IsRun;
    hide StartsAt;
    hide PassOk;
    hide StateOk;
    hide ReadAt;
    hide Acts;
  }

  /** By the version and the limit that were read for it, the batch of step `i` is within the lag. */
  ghost predicate WithinAsRead(states: seq<State>, events: seq<Timed>, i: nat, p: Pass) {
    exists v: nat, l: nat ::
      && ReadAt(states, events, v, l, i, p.window)
      && NoneBeyond(Window(Version(states[v].db), states[l].db.settings.maxLag), NewBatch(p))
  }

  ghost predicate NoneBeyond(w: Window, b: Batch) {
    forall q :: 0 <= q < |b.examples| ==> !Beyond(w, b.examples[q].policy.version)
  }

  lemma EmissionFacts(p: Pass, limit: Limit)
    requires LedgerOk(p.before) && PlacesOk(p.before) && PoliciesOk(p.before) && PassOk(p, limit) && p.deed.EmitBatch?
    ensures OnePolicyBatch(NewBatch(p)) && NewBatch(p).examples != [] && NoneBeyond(p.window, NewBatch(p))
    ensures StepOf(p) in After(p).batches && After(p).batches[StepOf(p)] == NewBatch(p)
  {
    hide LedgerOk;
    hide PlacesOk;
    hide PoliciesOk;
    hide After;
    hide Listed;
    hide Chosen;
    hide Extends;
    hide OnlyMembers;
    hide Waits;
    hide Beyond;
    hide Samples;
    PassEffect(p, limit);
    EmittedPolicy(p, limit);
    var b := NewBatch(p);
    assert b.examples == Samples(p.before, p.members);
    hide NewBatch;
    forall q | 0 <= q < |b.examples| ensures !Beyond(p.window, b.examples[q].policy.version) {
      assert !Beyond(p.window, Samples(p.before, p.members)[q].policy.version);
    }
    forall q, r | 0 <= q < |b.examples| && 0 <= r < |b.examples| ensures b.examples[q].policy == b.examples[r].policy {
      assert Samples(p.before, p.members)[q].policy == Samples(p.before, p.members)[r].policy;
    }
  }

  /** Every batch emitted in a run is of one policy, and within the lag by the version and the limit that were read for it. */
  lemma EmittedHomogeneous(states: seq<State>, events: seq<Timed>, retry: Retry, limit: Limit, start: Time, i: nat, p: Pass)
    requires IsRun(states, events, retry, limit) && StartsAt(states, events, start)
    requires i < |events| && events[i].action == Act(p) && p.deed.EmitBatch?
    ensures OnePolicyBatch(NewBatch(p)) && NewBatch(p).examples != []
    ensures StepOf(p) in states[i + 1].ledger.batches && states[i + 1].ledger.batches[StepOf(p)] == NewBatch(p)
    ensures WithinAsRead(states, events, i, p)
  {
    hide Step;
    hide StateOk;
    hide StartsAt;
    hide PassOk;
    hide OnePolicyBatch;
    hide NewBatch;
    hide StepOf;
    hide NoneBeyond;
    hide Version;
    ActReads(states, events, retry, limit, start, i, p);
    LedgerRunKeeps(states, events, retry, limit, start, i);
    StatePolicies(states[i], TimeAt(events, start, i));
    hide After;
    hide LedgerOk;
    hide PoliciesOk;
    hide PlacesOk;
    EmissionFacts(p, limit);
    ReadWithin(states, events, i, p);
  }

  lemma ReadWithin(states: seq<State>, events: seq<Timed>, i: nat, p: Pass)
    requires NoneBeyond(p.window, NewBatch(p)) && exists v: nat, l: nat :: ReadAt(states, events, v, l, i, p.window)
    ensures WithinAsRead(states, events, i, p)
  {
    hide NoneBeyond;
    hide NewBatch;
    hide Version;
    hide LedgerSince;
    var v: nat, l: nat :| ReadAt(states, events, v, l, i, p.window);
    assert p.window == Window(Version(states[v].db), states[l].db.settings.maxLag);
  }

  /** The rollout was dropped by step `i` for a reason, by the readings of two earlier states. */
  ghost predicate DroppedAt(states: seq<State>, events: seq<Timed>, limit: Limit, i: nat, k: Key) {
    && i < |events| && events[i].action.Act?
    && ActsAt(states, events, limit, i, events[i].action.pass) && DropReason(events[i].action.pass, limit, k)
    && exists v: nat, l: nat :: ReadAt(states, events, v, l, i, events[i].action.pass.window)
  }

  lemma DropStep(p: Pass, limit: Limit, k: Key)
    requires LedgerOk(p.before) && PassOk(p, limit)
    requires k in After(p).places && After(p).places[k].Discarded? && !(k in p.before.places && p.before.places[k].Discarded?)
    ensures DropReason(p, limit, k)
  {
    PassEffect(p, limit);
    hide LedgerOk;
    hide After;
    hide Listed;
    hide Selected;
    hide IsStale;
    hide Samples;
    hide NewBatch;
    assert k in p.members;
    MemberStands(p, After(p), k);
  }

  /** Over every run: a rollout that is not trained on was stale by the readings of its pass, or selected without a sample. */
  lemma {:induction false} DroppedForReason(
      states: seq<State>, events: seq<Timed>, retry: Retry, limit: Limit, start: Time, j: nat, k: Key)
    requires IsRun(states, events, retry, limit) && StartsAt(states, events, start) && j <= |events|
    requires k in states[j].ledger.places && states[j].ledger.places[k].Discarded?
    ensures exists i: nat :: i < j && DroppedAt(states, events, limit, i, k)
    decreases j
  {
    hide Step;
    hide StateOk;
    hide DroppedAt;
    if j > 0 {
      if k in states[j - 1].ledger.places && states[j - 1].ledger.places[k].Discarded? {
        DroppedForReason(states, events, retry, limit, start, j - 1, k);
      } else {
        LedgerRunKeeps(states, events, retry, limit, start, j - 1);
        DroppedNow(states, events, retry, limit, start, j - 1, k);
      }
    }
  }

  lemma DroppedNow(states: seq<State>, events: seq<Timed>, retry: Retry, limit: Limit, start: Time, i: nat, k: Key)
    requires IsRun(states, events, retry, limit) && StartsAt(states, events, start) && i < |events|
    requires k in states[i + 1].ledger.places && states[i + 1].ledger.places[k].Discarded?
    requires !(k in states[i].ledger.places && states[i].ledger.places[k].Discarded?)
    ensures DroppedAt(states, events, limit, i, k)
  {
    LedgerRunKeeps(states, events, retry, limit, start, i);
    assert LedgerOk(states[i].ledger);
    hide StateOk;
    hide LedgerOk;
    var s, to, a := states[i], states[i + 1], events[i].action;
    assert Step(s, to, retry, limit, a, events[i].now);
    if a.Act? {
      hide Step;
      ActReads(states, events, retry, limit, start, i, a.pass);
      hide IsRun;
      hide After;
      hide PassOk;
      hide ReadAt;
      DropStep(a.pass, limit, k);
      hide DropReason;
    } else {
      hide IsRun;
      OnlyPassesDrop(s, to, retry, limit, a, events[i].now, k);
      assert false;
    }
  }

  lemma OnlyPassesDrop(s: State, to: State, retry: Retry, limit: Limit, a: Action, now: Time, k: Key)
    requires LedgerOk(s.ledger) && Step(s, to, retry, limit, a, now) && !a.Act?
    requires k in to.ledger.places && to.ledger.places[k].Discarded?
    ensures k in s.ledger.places && s.ledger.places[k].Discarded?
  {
    hide LedgerOk;
    hide Coordinator.Step;
    hide MadeOk;
    hide RecordGroup;
    hide Listed;
    hide Version;
    hide Waits;
    if a.Process? {
      RecordGroupKeeps(s.ledger, Made(s.db, a.group, a.input, a.rollouts), s.db.groups[a.group].state.Ready?);
    }
  }

  /** Nothing of an eval group ever waits for, or enters, a training batch. */
  lemma OnlyTrainRollouts(states: seq<State>, events: seq<Timed>, retry: Retry, limit: Limit, start: Time, i: nat, k: Key)
    requires IsRun(states, events, retry, limit) && StartsAt(states, events, start) && i <= |events|
    requires k in states[i].ledger.places
    ensures k.group in states[i].db.groups && states[i].db.groups[k.group].kind.Train? && states[i].db.groups[k.group].state.Ready?
  {
    LedgerRunKeeps(states, events, retry, limit, start, i);
    hide Invariant;
    hide IsRun;
    hide BatchesOk;
    assert MadeOk(states[i].db, k.group, states[i].ledger.groups[k.group]);
  }

  /** A rollout is trained on at most once: from the moment it is in a batch it stays there, alone at its place. */
  lemma TrainedOnce(states: seq<State>, events: seq<Timed>, retry: Retry, limit: Limit, start: Time, i: nat, j: nat, k: Key, l: Key)
    requires IsRun(states, events, retry, limit) && StartsAt(states, events, start) && i <= j <= |events|
    requires k in states[i].ledger.places && states[i].ledger.places[k].Batched?
    requires l in states[j].ledger.places && states[j].ledger.places[l] == states[i].ledger.places[k]
    ensures k in states[j].ledger.places && states[j].ledger.places[k] == states[i].ledger.places[k] && k == l
  {
    LedgerRunEvolves(states, events, retry, limit, start, i, j);
    LedgerRunKeeps(states, events, retry, limit, start, j);
    hide IsRun;
    hide Invariant;
    hide Drawn;
    hide BatchesOk;
    assert BatchedOk(states[j].ledger);
  }
}
