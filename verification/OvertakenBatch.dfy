/** A run in which an activation falls between reading the window and recording the batch, so the batch is beyond the lag. */
module OvertakenBatch {
  import opened Wrappers
  import opened CoordinatorTables
  import opened CoordinatorOperations
  import opened CoordinatorInvariants
  import Coordinator = CoordinatorRuns
  import opened TrainingLedger
  import opened BatchSelection
  import opened BatchEmission
  import opened LedgerRuns
  import opened EmissionRuns
  import opened LagWindows

  // ---------------------------------------------------------------- one group, leased and accepted

  const BASE := Policy(Manifest(0, 0, 0, None, 0), 0)
  const NEXT := Policy(Manifest(1, 1, 0, None, 0), 0)
  const RETRY := Retry(1.0, 1.0)
  const SPEC := SourceSpec(Train, 1.0, [0], 1, 1, None, true, 0)
  const SLOT := Capabilities(0, 1, 0)
  const ASK := LeaseRequest(0, 0, 0, 0.0, [], 1, 0)
  const RESULT := ResultEnvelope(1, 1, 0, 0, 0, 0, BASE.manifest, 0)
  const GROUP := Group(0, Train, 1, 0, 0.0, Occurrence(0, 0), 1, Collecting)
  const ROW := Assignment(0, 0, 0, 1, 0.0, None, 0, 0.0, Pending, None, None, None, None)
  const LEASED := ROW.(state := Leased, attemptCount := 1, current := Some(0))
  const LEASE := Lease(1, 1, 0, 0, 0.0, 1.0, Active, None, NotCancelled, None)

  const INITIAL := Coordinator.Initialized(BASE)
  const CONFIGURED := INITIAL.(settings := Settings(Some(0), Some(0.0), 1))
  const SOURCED := CONFIGURED.(sources := map[0 := Source(SPEC, 0.0, 0)])
  const REGISTERED := SOURCED.(sessions := map[0 := Session(0, SLOT, None, None)])
  const ASKED := REGISTERED.(requests := map[0 := Request(0, ASK, Undecided)], sessions := map[0 := Session(0, SLOT, None, Some(0.0))])
  const GROUPED := ASKED.(settings := Settings(Some(0), Some(0.0), 2), groups := map[0 := GROUP], assignments := map[1 := ROW],
                          sources := map[0 := Source(SPEC, 1.0, 1)])
  const ISSUED := GROUPED.(leases := map[0 := LEASE], assignments := map[1 := LEASED], requests := map[0 := Request(0, ASK, Granted(0))])
  const ACCEPTED := ISSUED.(leases := map[0 := LEASE.(state := LeaseSucceeded)],
                            assignments := map[1 := RowAfterResult(LEASED, RESULT, 0.0)], groups := map[0 := GROUP.(state := Ready)])

  lemma ConfiguredIs()
    ensures ConfigureScheduler(INITIAL, 0, 0.0, 0.0).db == CONFIGURED
  {
    var d := Cancelled(CONFIGURED, 0, 0.0);
    assert d.assignments == map[] && d.leases == map[] && d.groups == map[];
  }

  lemma SourcedIs()
    ensures SpecOk(SPEC) && RegisterSource(CONFIGURED, 0, SPEC).db == SOURCED
  {
  }

  lemma RegisteredIs()
    ensures RegisterWorker(SOURCED, 0, 0, SLOT).db == REGISTERED
  {
  }

  lemma AskedIs()
    ensures ValidateLeaseRequest(REGISTERED, ASK, 0.0).db == ASKED
  {
    assert Live(REGISTERED, 0, 0.0) == {};
  }

  lemma GroupedIs()
    ensures (forall s :: s in ASKED.sources ==> SpecOk(ASKED.sources[s].spec))
    ensures CreateNextGroup(ASKED, None, n => n, 0.0).db == GROUPED
  {
    var ids: nat -> Id := n => n;
    assert Enabled(ASKED.sources, None) == {0};
    assert FreshIds(ASKED, ids, 1);
    assert NewRows(SPEC, 0, 0, ids, 0.0, 1) == NewRows(SPEC, 0, 0, ids, 0.0, 0)[ids(1) := NewRow(SPEC, 0, 0, 0, 0.0)];
    assert NewRows(SPEC, 0, 0, ids, 0.0, 1) == map[1 := ROW];
    assert Created(ASKED, 0, ids, 0.0) == GROUPED;
  }

  lemma NothingReleased()
    ensures Cancelled(Expired(GROUPED, RETRY, 0.0), 0, 0.0) == GROUPED
  {
    var e := Expired(GROUPED, RETRY, 0.0);
    assert e.leases == map[] && e.assignments == map[1 := ROW];
    assert !Settled(GROUPED.assignments, 0) by { assert 1 in GROUPED.assignments && GROUPED.assignments[1] == ROW; }
    assert e.groups == map[0 := GROUP];
    assert e == GROUPED;
    assert !StaleGroup(GROUPED, 0, 0);
    var c := Cancelled(GROUPED, 0, 0.0);
    assert c.leases == map[] && c.assignments == map[1 := ROW] && c.groups == map[0 := GROUP];
  }

  lemma IssuedIs()
    ensures LeaseNext(GROUPED, ASK, RETRY, 1.0, 0, 0.0).db == ISSUED
  {
    NothingReleased();
    hide Cancelled;
    hide Expired;
    assert Live(GROUPED, 0, 0.0) == {};
    assert Candidates(GROUPED, 0.0) == {1};
    assert Issue(GROUPED, ASK, 1, 0, 1.0, 0.0) == ISSUED;
  }

  lemma AcceptedIs()
    ensures AcceptResult(ISSUED, RESULT, 0.0).db == ACCEPTED
  {
    assert ResultError(ISSUED, RESULT, 0.0).None?;
    assert Settled(ACCEPTED.assignments, 0);
    assert CommitResult(ISSUED, RESULT, 0.0) == ACCEPTED;
  }

  // ---------------------------------------------------------------- one rollout, selected

  const ROLLOUT := RolloutPayload([Sample(BASE.manifest, 0)], 1)
  const PROCESSED := Processed(0, 1, Payload(0, BASE.manifest, None, [ROLLOUT]))
  const KEY := Key(0, 0)
  const FULL := Ledger(map[0 := PROCESSED], map[KEY := Unbatched], map[])
  const READ := Window(0, Some(0))
  const PASS := Pass(FULL, READ, [KEY], [KEY], EmitBatch)
  const LIMIT := BySize(1)

  lemma ProcessedIs()
    ensures Known(ACCEPTED, 0) && Made(ACCEPTED, 0, 0, [ROLLOUT]) == PROCESSED && MadeOk(ACCEPTED, 0, PROCESSED)
    ensures RecordGroup(EMPTY, PROCESSED, true).ledger == FULL
  {
    assert NewPlaces(map[], 0, 1) == NewPlaces(map[], 0, 0)[KEY := Unbatched];
  }

  lemma ListedIs()
    ensures Listed(FULL, [KEY], Waits(FULL))
  {
    assert Waits(FULL) == {KEY};
  }

  lemma SelectedIs()
    ensures Acts(PASS, LIMIT) && NewBatch(PASS) == Batch([Sample(BASE.manifest, 0)], 1)
  {
    var x := IdentityOf(FULL, KEY);
    assert [KEY][..0] == [];
    assert Of(FULL, [KEY], x) == Of(FULL, [KEY][..0], x) + [KEY];
    assert Of(FULL, [KEY], x) == [KEY];
    assert BatchSelection.StartsAt(FULL, [KEY], x, 0);
    assert Earliest(FULL, LIMIT, [KEY], x);
    assert Shortest(FULL, LIMIT, [KEY], [KEY]);
    assert Samples(FULL, [KEY]) == Samples(FULL, [KEY][..0]) + ROLLOUT.samples;
    assert Samples(FULL, [KEY]) == ROLLOUT.samples;
  }

  // ---------------------------------------------------------------- the run

  const START := State(INITIAL, EMPTY, Resting)

  ghost predicate Arrives(s: State) {
    Reaches(START, 0.0, s, 0.0, RETRY, LIMIT, [])
  }

  lemma Coordinates(db: Tables, to: Tables, e: Coordinator.Event)
    requires Arrives(State(db, EMPTY, Resting)) && Coordinator.Step(db, to, RETRY, e, 0.0)
    ensures Arrives(State(to, EMPTY, Resting))
  {
    hide Reaches;
    hide Coordinator.Step;
    ReachesStep(START, 0.0, State(db, EMPTY, Resting), 0.0, RETRY, LIMIT, [], Coordinate(e), State(to, EMPTY, Resting), 0.0);
    var none: seq<Pass> := [];
    assert none + PassOf(Coordinate(e)) == none;
  }

  lemma GroupArrives()
    ensures Arrives(State(GROUPED, EMPTY, Resting))
  {
    hide Arrives;
    hide ConfigureScheduler;
    hide RegisterSource;
    hide RegisterWorker;
    hide ValidateLeaseRequest;
    hide CreateNextGroup;
    StartArrives();
    ConfiguredIs();
    Coordinates(INITIAL, CONFIGURED, Coordinator.ConfigureEvent(0, 0.0));
    SourcedIs();
    Coordinates(CONFIGURED, SOURCED, Coordinator.SourceEvent(0, SPEC));
    RegisteredIs();
    Coordinates(SOURCED, REGISTERED, Coordinator.RegisterEvent(0, 0, SLOT));
    AskedIs();
    Coordinates(REGISTERED, ASKED, Coordinator.RequestEvent(ASK));
    GroupedIs();
    Coordinates(ASKED, GROUPED, Coordinator.GroupEvent(None, n => n));
  }

  lemma StartArrives()
    ensures Arrives(START)
  {
    ReachesSelf(START, 0.0, RETRY, LIMIT);
  }

  lemma ResultArrives()
    ensures Arrives(State(ACCEPTED, EMPTY, Resting))
  {
    hide Arrives;
    hide LeaseNext;
    hide AcceptResult;
    GroupArrives();
    IssuedIs();
    Coordinates(GROUPED, ISSUED, Coordinator.LeaseEvent(ASK, 1.0, 0));
    AcceptedIs();
    Coordinates(ISSUED, ACCEPTED, Coordinator.ResultEvent(RESULT));
  }

  lemma Continues(s: State, a: Action, to: State)
    requires Arrives(s) && !a.Act? && Step(s, to, RETRY, LIMIT, a, 0.0)
    ensures Arrives(to)
  {
    hide Reaches;
    hide Step;
    ReachesStep(START, 0.0, s, 0.0, RETRY, LIMIT, [], a, to, 0.0);
    var none: seq<Pass> := [];
    assert none + PassOf(a) == none;
  }

  lemma WindowArrives()
    ensures Arrives(State(ACCEPTED, FULL, HasWindow([KEY], READ)))
  {
    hide Arrives;
    hide Listed;
    hide RecordGroup;
    hide MadeOk;
    ResultArrives();
    ProcessedIs();
    ListedIs();
    Continues(State(ACCEPTED, EMPTY, Resting), Process(0, 0, [ROLLOUT]), State(ACCEPTED, FULL, Resting));
    Continues(State(ACCEPTED, FULL, Resting), List([KEY]), State(ACCEPTED, FULL, HasListing([KEY])));
    Continues(State(ACCEPTED, FULL, HasListing([KEY])), ReadVersion, State(ACCEPTED, FULL, HasVersion([KEY], 0)));
    Continues(State(ACCEPTED, FULL, HasVersion([KEY], 0)), ReadLag, State(ACCEPTED, FULL, HasWindow([KEY], READ)));
  }

  ghost function Overtaken(): Tables {
    RecordAndActivatePolicy(ACCEPTED, NEXT, 0.0).db
  }

  lemma OvertakenWindow()
    ensures WindowOf(Overtaken()) == Window(1, Some(0))
  {
    var e := Coordinator.RecordAndActivateEvent(NEXT);
    assert RecordPolicy(ACCEPTED, NEXT).result.Success?;
    assert Activated(ACCEPTED, e) == Some(1) && Limited(e) == None;
    hide RecordAndActivatePolicy;
    WindowStep(ACCEPTED, Overtaken(), RETRY, e, 0.0);
  }

  lemma OvertakenArrives()
    ensures Arrives(State(Overtaken(), FULL, HasWindow([KEY], READ)))
  {
    hide Arrives;
    hide RecordAndActivatePolicy;
    WindowArrives();
    Continues(State(ACCEPTED, FULL, HasWindow([KEY], READ)), Coordinate(Coordinator.RecordAndActivateEvent(NEXT)),
              State(Overtaken(), FULL, HasWindow([KEY], READ)));
  }

  /** Step `i` of a run from the start records a batch that is then beyond the lag. */
  ghost predicate RecordsBeyond(states: seq<State>, events: seq<Timed>, i: nat, p: Pass) {
    && IsRun(states, events, RETRY, LIMIT) && LedgerRuns.StartsAt(states, events, 0.0)
    && i < |events| && events[i].action == Act(p) && p.deed.EmitBatch?
    && !NoneBeyond(WindowOf(states[i].db), NewBatch(p))
  }

  /** The batch of version 0 is recorded while version 1 is active and no lag is allowed. */
  lemma RecordedBeyondLag()
    ensures exists states, events, i: nat, p :: RecordsBeyond(states, events, i, p)
  {
    OvertakenArrives();
    OvertakenWindow();
    SelectedIs();
    hide Acts;
    hide After;
    hide NewBatch;
    hide WindowOf;
    hide Overtaken;
    var s := State(Overtaken(), FULL, HasWindow([KEY], READ));
    var to := State(Overtaken(), After(PASS), Resting);
    assert Step(s, to, RETRY, LIMIT, Act(PASS), 0.0);
    hide Step;
    var states, events :| Leads(states, events, START, 0.0, s, 0.0, RETRY, LIMIT, []);
    LeadsStep(states, events, START, 0.0, s, 0.0, RETRY, LIMIT, [], Act(PASS), to, 0.0);
    var i := |events|;
    var more, longer := states + [to], events + [Timed(Act(PASS), 0.0)];
    assert IsRun(more, longer, RETRY, LIMIT) && more[i] == s && longer[i].action == Act(PASS);
    assert more[0] == State(Coordinator.Initialized(BASE), EMPTY, Resting) && LedgerRuns.StartsAt(more, longer, 0.0);
    assert Beyond(Window(1, Some(0)), NewBatch(PASS).examples[0].policy.version);
    assert RecordsBeyond(more, longer, i, PASS);
  }
}
