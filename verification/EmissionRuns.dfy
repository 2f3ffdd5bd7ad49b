/** The emission loop as a stretch of a run of coordinator and processor: its passes are the run's, in order. */
module EmissionRuns {
  import opened Wrappers
  import opened CoordinatorTables
  import opened CoordinatorOperations
  import opened CoordinatorInvariants
  import Coordinator = CoordinatorRuns
  import opened TrainingLedger
  import opened BatchSelection
  import opened BatchEmission
  import opened LedgerRuns

  /** The passes among the events. */
  function PassesOf(events: seq<Timed>): seq<Pass> {
    if events == [] then []
    else
      var last := events[|events| - 1].action;
      PassesOf(events[..|events| - 1]) + if last.Act? then [last.pass] else []
  }

  ghost predicate Between(events: seq<Timed>, t: Time, u: Time) {
    t <= u && forall i :: 0 <= i < |events| ==> t <= events[i].now <= u
  }

  ghost predicate Leads(states: seq<State>, events: seq<Timed>, from: State, t: Time, to: State, u: Time,
                        retry: Retry, limit: Limit, passes: seq<Pass>) {
    && IsRun(states, events, retry, limit) && states[0] == from && states[|states| - 1] == to
    && Between(events, t, u) && PassesOf(events) == passes
  }

  /** Some run takes `from` at time `t` to `to` at time `u`, and `passes` are what the processor did on the way. */
  ghost predicate Reaches(from: State, t: Time, to: State, u: Time, retry: Retry, limit: Limit, passes: seq<Pass>) {
    exists states, events :: Leads(states, events, from, t, to, u, retry, limit, passes)
  }

  lemma ReachesSelf(s: State, t: Time, retry: Retry, limit: Limit)
    requires RetryOk(retry)
    ensures Reaches(s, t, s, t, retry, limit, [])
  {
    assert Leads([s], [], s, t, s, t, retry, limit, []);
  }

  function PassOf(a: Action): seq<Pass> {
    if a.Act? then [a.pass] else []
  }

  lemma LeadsStep(states: seq<State>, events: seq<Timed>, from: State, t: Time, s: State, u: Time,
                  retry: Retry, limit: Limit, passes: seq<Pass>, a: Action, to: State, now: Time)
    requires Leads(states, events, from, t, s, u, retry, limit, passes) && u <= now && Step(s, to, retry, limit, a, now)
    ensures Leads(states + [to], events + [Timed(a, now)], from, t, to, now, retry, limit, passes + PassOf(a))
  {
    hide Step;
    var more, longer := states + [to], events + [Timed(a, now)];
    assert longer[..|longer| - 1] == events;
    forall i | 0 <= i < |longer| ensures Step(more[i], more[i + 1], retry, limit, longer[i].action, longer[i].now) {
      if i < |events| { assert Step(states[i], states[i + 1], retry, limit, events[i].action, events[i].now); }
    }
  }

  /** A run can be continued by any step. */
  lemma ReachesStep(from: State, t: Time, s: State, u: Time, retry: Retry, limit: Limit, passes: seq<Pass>, a: Action, to: State, now: Time)
    requires Reaches(from, t, s, u, retry, limit, passes) && u <= now && Step(s, to, retry, limit, a, now)
    ensures Reaches(from, t, to, now, retry, limit, passes + PassOf(a))
  {
    hide Step;
    hide Leads;
    var states, events :| Leads(states, events, from, t, s, u, retry, limit, passes);
    LeadsStep(states, events, from, t, s, u, retry, limit, passes, a, to, now);
  }

  // ---------------------------------------------------------------- the coordinator goes on meanwhile

  /** Transactions of the coordinator take `db` at time `t` to `to` at time `u`. */
  ghost predicate Coordinated(dbs: seq<Tables>, events: seq<Coordinator.Timed>, retry: Retry, db: Tables, t: Time, to: Tables, u: Time) {
    && Coordinator.IsRun(dbs, events, retry) && dbs[0] == db && dbs[|dbs| - 1] == to
    && t <= u && forall i :: 0 <= i < |events| ==> t <= events[i].now <= u
  }

  ghost predicate Carried(retry: Retry, db: Tables, t: Time, to: Tables, u: Time) {
    exists dbs, events :: Coordinated(dbs, events, retry, db, t, to, u)
  }

  lemma LaterReaches(from: State, t: Time, s: State, u: Time, retry: Retry, limit: Limit, passes: seq<Pass>, now: Time)
    requires Reaches(from, t, s, u, retry, limit, passes) && u <= now
    ensures Reaches(from, t, s, now, retry, limit, passes)
  {
    var states, events :| Leads(states, events, from, t, s, u, retry, limit, passes);
    hide IsRun;
    assert Leads(states, events, from, t, s, now, retry, limit, passes);
  }

  lemma {:induction false} PrefixReaches(from: State, t: Time, s: State, u: Time, retry: Retry, limit: Limit, passes: seq<Pass>,
                                         dbs: seq<Tables>, events: seq<Coordinator.Timed>, n: nat)
    requires Reaches(from, t, s, u, retry, limit, passes) && n < |dbs| == |events| + 1
    requires Coordinator.IsRun(dbs, events, retry) && dbs[0] == s.db && forall i :: 0 <= i < |events| ==> u <= events[i].now
    ensures Reaches(from, t, s.(db := dbs[n]), if n == 0 then u else events[n - 1].now, retry, limit, passes)
    decreases n
  {
    hide Coordinator.Step;
    hide Reaches;
    if n > 0 {
      PrefixReaches(from, t, s, u, retry, limit, passes, dbs, events, n - 1);
      var e := events[n - 1];
      assert Coordinator.Step(dbs[n - 1], dbs[n], retry, e.event, e.now);
      ReachesStep(from, t, s.(db := dbs[n - 1]), if n == 1 then u else events[n - 2].now, retry, limit, passes,
                  Coordinate(e.event), s.(db := dbs[n]), e.now);
      assert passes + [] == passes;
    }
  }

  /** While the processor waits for the database, the coordinator's transactions go on. */
  lemma CarriedReaches(from: State, t: Time, s: State, u: Time, retry: Retry, limit: Limit, passes: seq<Pass>, db: Tables, now: Time)
    requires Reaches(from, t, s, u, retry, limit, passes) && Carried(retry, s.db, u, db, now)
    ensures Reaches(from, t, s.(db := db), now, retry, limit, passes)
  {
    var dbs: seq<Tables>, events: seq<Coordinator.Timed> :| Coordinated(dbs, events, retry, s.db, u, db, now);
    hide Reaches;
    PrefixReaches(from, t, s, u, retry, limit, passes, dbs, events, |events|);
    LaterReaches(from, t, s.(db := db), if events == [] then u else events[|events| - 1].now, retry, limit, passes, now);
  }

  // ---------------------------------------------------------------- one pass, and the whole loop

  /** The tables when a pass read the version, read the limit and committed, with the times. */
  datatype Reading = Reading(versioned: Tables, versionAt: Time, limited: Tables, limitAt: Time, committed: Tables, commitAt: Time)

  ghost predicate ReadingOk(retry: Retry, db: Tables, t: Time, r: Reading, w: Window) {
    && Carried(retry, db, t, r.versioned, r.versionAt)
    && Carried(retry, r.versioned, r.versionAt, r.limited, r.limitAt)
    && Carried(retry, r.limited, r.limitAt, r.committed, r.commitAt)
    && w == Window(Version(r.versioned), r.limited.settings.maxLag)
  }

  lemma PassReaches(from: State, t: Time, db: Tables, u: Time, retry: Retry, limit: Limit, passes: seq<Pass>, p: Pass, r: Reading)
    requires Reaches(from, t, State(db, p.before, Resting), u, retry, limit, passes)
    requires PassOk(p, limit) && ReadingOk(retry, db, u, r, p.window)
    ensures Reaches(from, t, State(r.committed, After(p), Resting), r.commitAt, retry, limit, passes + [p])
  {
    hide Reaches;
    hide Carried;
    hide Listed;
    hide Acts;
    hide After;
    hide Version;
    var listing := HasListing(p.listing);
    ReachesStep(from, t, State(db, p.before, Resting), u, retry, limit, passes, List(p.listing), State(db, p.before, listing), u);
    assert passes + [] == passes;
    CarriedReaches(from, t, State(db, p.before, listing), u, retry, limit, passes, r.versioned, r.versionAt);
    var version := HasVersion(p.listing, p.window.active);
    ReachesStep(from, t, State(r.versioned, p.before, listing), r.versionAt, retry, limit, passes, ReadVersion,
                State(r.versioned, p.before, version), r.versionAt);
    CarriedReaches(from, t, State(r.versioned, p.before, version), r.versionAt, retry, limit, passes, r.limited, r.limitAt);
    var window := HasWindow(p.listing, p.window);
    ReachesStep(from, t, State(r.limited, p.before, version), r.limitAt, retry, limit, passes, ReadLag,
                State(r.limited, p.before, window), r.limitAt);
    CarriedReaches(from, t, State(r.limited, p.before, window), r.limitAt, retry, limit, passes, r.committed, r.commitAt);
    ReachesStep(from, t, State(r.committed, p.before, window), r.commitAt, retry, limit, passes, Act(p),
                State(r.committed, After(p), Resting), r.commitAt);
  }

  /** Where the tables stand before pass `i`. */
  function TablesBefore(db: Tables, readings: seq<Reading>, i: nat): Tables
    requires i <= |readings|
  {
    if i == 0 then db else readings[i - 1].committed
  }

  function TimeBefore(t: Time, readings: seq<Reading>, i: nat): Time
    requires i <= |readings|
  {
    if i == 0 then t else readings[i - 1].commitAt
  }

  /** The windows of the passes are what they read, one after the other, while the coordinator went on from `db`. */
  ghost predicate ReadingsOk(retry: Retry, db: Tables, t: Time, readings: seq<Reading>, log: seq<Pass>) {
    && |readings| == |log|
    && forall i :: 0 <= i < |log| ==> ReadingOk(retry, TablesBefore(db, readings, i), TimeBefore(t, readings, i), readings[i], log[i].window)
  }

  /**
   The contract of `EmitReadyBatches` makes it a stretch of a run: with the passes it logs, in order, whatever the
   coordinator commits between and within them.
   */
  lemma {:induction false} EmissionReaches(db: Tables, t: Time, s: Ledger, log: seq<Pass>, to: Ledger, retry: Retry, limit: Limit, readings: seq<Reading>)
    requires RetryOk(retry) && Chained(s, log, to) && (forall i :: 0 <= i < |log| ==> PassOk(log[i], limit))
    requires ReadingsOk(retry, db, t, readings, log)
    ensures Reaches(State(db, s, Resting), t, State(TablesBefore(db, readings, |log|), to, Resting), TimeBefore(t, readings, |log|), retry, limit, log)
    decreases |log|
  {
    hide Reaches;
    hide PassOk;
    hide ReadingOk;
    hide After;
    if log == [] {
      ReachesSelf(State(db, s, Resting), t, retry, limit);
    } else {
      var n := |log| - 1;
      var p := log[n];
      EmissionReaches(db, t, s, log[..n], p.before, retry, limit, readings[..n]);
      PassReaches(State(db, s, Resting), t, TablesBefore(db, readings, n), TimeBefore(t, readings, n), retry, limit, log[..n], p, readings[n]);
      assert log == log[..n] + [p];
    }
  }
}
