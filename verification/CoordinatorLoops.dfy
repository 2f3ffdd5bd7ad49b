/** The row-by-row loops inside the transactions, and the selections by least row. */
module CoordinatorLoops {
  import opened Wrappers
  import opened CoordinatorTables
  import opened CoordinatorOperations
  import opened CoordinatorInvariants
  import opened CoordinatorExpiry

  // ---------------------------------------------------------------- expiry

  ghost predicate LeasesPartly(start: Tables, leases: map<Id, Lease>, now: Time, todo: set<Id>) {
    leases.Keys == start.leases.Keys
    && forall l :: l in start.leases ==> leases[l] == if l in todo then start.leases[l] else LeaseAfterExpiry(start, now, l)
  }

  ghost predicate RowsPartly(start: Tables, rows: map<Id, Assignment>, retry: Retry, now: Time, todo: set<Id>) {
    rows.Keys == start.assignments.Keys
    && forall a :: a in start.assignments ==>
         rows[a] == if HeldDue(start, now, a) && start.assignments[a].current.value !in todo
                    then AssignmentAfterExpiry(start, retry, now, a) else start.assignments[a]
  }

  /** What the tables look like when the leases of `todo` are still to expire. */
  ghost predicate PartlyExpired(start: Tables, tx: Tables, retry: Retry, now: Time, todo: set<Id>) {
    && tx == start.(leases := tx.leases, assignments := tx.assignments)
    && LeasesPartly(start, tx.leases, now, todo) && RowsPartly(start, tx.assignments, retry, now, todo)
  }

  function DueLeases(tx: Tables, now: Time): set<Id> {
    set l | l in tx.leases && tx.leases[l].assignment in tx.assignments
            && Due(tx.leases[l], tx.assignments[tx.leases[l].assignment].deadline, now)
  }

  /** Rows read by the selection are written one by one, in any order. */
  method ExpireDue(start: Tables, retry: Retry, now: Time) returns (tx: Tables)
    requires RowsOk(start) && LinksOk(start) && HeldOk(start)
    ensures PartlyExpired(start, tx, retry, now, {})
  {
    hide RowAfterExpiry;
    tx := start;
    var todo := DueLeases(start, now);
    StartExpiry(start, retry, now);
    while todo != {}
      invariant todo <= DueLeases(start, now)
      invariant PartlyExpired(start, tx, retry, now, todo)
    {
      hide PartlyExpired;
      var l :| l in todo;
      var a := start.leases[l].assignment;
      var row := RowAfterExpiry(start.assignments[a], !start.leases[l].notice.NotCancelled?, retry, now, l);
      ExpireOne(start, tx, retry, now, todo, l);
      tx := tx.(leases := tx.leases[l := start.leases[l].(state := LeaseExpired)], assignments := tx.assignments[a := row]);
      todo := todo - {l};
    }
  }

  lemma StartExpiry(start: Tables, retry: Retry, now: Time)
    requires LinksOk(start) && HeldOk(start)
    ensures PartlyExpired(start, start, retry, now, DueLeases(start, now))
  {
    forall a | a in start.assignments && HeldDue(start, now, a) ensures start.assignments[a].current.value in DueLeases(start, now) {
      HeldLease(start, a);
    }
  }

  lemma SoleHolder(start: Tables, b: Id, l: Id)
    requires HeldOk(start) && b in start.assignments && start.assignments[b].current == Some(l)
    ensures l in start.leases && start.leases[l].assignment == b
  {
    assert LeaseOf(start, start.assignments[b].current, b);
  }

  lemma ExpireRow(start: Tables, rows: map<Id, Assignment>, retry: Retry, now: Time, todo: set<Id>, l: Id)
    requires LinksOk(start) && HeldOk(start) && l in todo && todo <= DueLeases(start, now)
    requires RowsPartly(start, rows, retry, now, todo)
    ensures var a := start.leases[l].assignment;
            var row := RowAfterExpiry(start.assignments[a], !start.leases[l].notice.NotCancelled?, retry, now, l);
            RowsPartly(start, rows[a := row], retry, now, todo - {l})
  {
    hide RowAfterExpiry;
    hide HeldOk;
    var a := start.leases[l].assignment;
    assert start.assignments[a].current == Some(l) by { assert LinkOk(l, start.leases[l], start.assignments[a]); }
    hide LinksOk;
    forall b | b in start.assignments && b != a ensures start.assignments[b].current != Some(l) {
      if start.assignments[b].current == Some(l) { SoleHolder(start, b, l); }
    }
  }

  lemma ExpireOne(start: Tables, tx: Tables, retry: Retry, now: Time, todo: set<Id>, l: Id)
    requires LinksOk(start) && HeldOk(start) && l in todo && todo <= DueLeases(start, now)
    requires PartlyExpired(start, tx, retry, now, todo)
    ensures var a := start.leases[l].assignment;
            var row := RowAfterExpiry(start.assignments[a], !start.leases[l].notice.NotCancelled?, retry, now, l);
            PartlyExpired(start,
              tx.(leases := tx.leases[l := start.leases[l].(state := LeaseExpired)], assignments := tx.assignments[a := row]),
              retry, now, todo - {l})
  {
    ExpireRow(start, tx.assignments, retry, now, todo, l);
    hide RowAfterExpiry;
    hide HeldOk;
    hide LinksOk;
    hide RowsPartly;
  }

  predicate Overdue(row: Assignment, now: Time) {
    Waiting(row) && Passed(row.deadline, now)
  }

  function OverdueFailed(row: Assignment, now: Time): Assignment {
    if Overdue(row, now) then FailRow(row, Outcome(DeadlineExceeded, None, None, now)) else row
  }

  ghost predicate OnlyStates(start: map<Id, Group>, groups: map<Id, Group>) {
    groups.Keys == start.Keys && forall g :: g in start ==> groups[g] == start[g].(state := groups[g].state)
  }

  ghost predicate OverduePartly(start: map<Id, Assignment>, rows: map<Id, Assignment>, now: Time, todo: set<Id>) {
    rows.Keys == start.Keys && forall a :: a in start ==> rows[a] == if a in todo then start[a] else OverdueFailed(start[a], now)
  }

  lemma RecomputesState(start: map<Id, Group>, tx: Tables, g: Id)
    requires OnlyStates(start, tx.groups)
    ensures OnlyStates(start, RecomputeGroup(tx, g).groups)
    ensures RecomputeGroup(tx, g) == tx.(groups := RecomputeGroup(tx, g).groups)
  {
    hide Settled;
  }

  method FailOverdue(start: Tables, now: Time) returns (tx: Tables)
    ensures tx == start.(assignments := tx.assignments, groups := tx.groups)
    ensures OverduePartly(start.assignments, tx.assignments, now, {}) && OnlyStates(start.groups, tx.groups)
  {
    tx := start;
    var todo := set a | a in start.assignments && Overdue(start.assignments[a], now);
    while todo != {}
      invariant todo <= start.assignments.Keys
      invariant forall a :: a in todo ==> Overdue(start.assignments[a], now)
      invariant tx == start.(assignments := tx.assignments, groups := tx.groups)
      invariant OverduePartly(start.assignments, tx.assignments, now, todo)
      invariant OnlyStates(start.groups, tx.groups)
    {
      hide RecomputeGroup;
      hide OnlyStates;
      var a :| a in todo;
      var row := FailRow(start.assignments[a], Outcome(DeadlineExceeded, None, None, now));
      tx := tx.(assignments := tx.assignments[a := row]);
      RecomputesState(start.groups, tx, row.group);
      tx := RecomputeGroup(tx, row.group);
      todo := todo - {a};
    }
  }

  method RecomputeAll(start: Tables) returns (tx: Tables)
    ensures tx == RecomputeGroups(start)
  {
    tx := start;
    var todo := start.groups.Keys;
    while todo != {}
      invariant todo <= start.groups.Keys && tx.groups.Keys == start.groups.Keys
      invariant tx == start.(groups := tx.groups)
      invariant forall g :: g in start.groups ==>
        tx.groups[g] == if g in todo then start.groups[g] else Recomputed(start.groups, start.assignments, g)
    {
      hide Settled;
      var g :| g in todo;
      tx := tx.(groups := tx.groups[g := Recomputed(tx.groups, tx.assignments, g)]);
      todo := todo - {g};
    }
    assert tx.groups == RecomputeGroups(start).groups;
  }

  /** An assignment sent back to wait by an expiry is not overdue in the same transaction. */
  lemma NotOverdueTwice(start: Tables, retry: Retry, now: Time, a: Id)
    requires RetryOk(retry) && a in start.assignments
    ensures var row := start.assignments[a];
            OverdueFailed(if HeldDue(start, now, a) then AssignmentAfterExpiry(start, retry, now, a) else row, now)
            == AssignmentAfterExpiry(start, retry, now, a)
  {
    DelayPositive(retry, start.assignments[a].attemptCount);
    hide Delay;
  }

  lemma RecomputedSame(start: Tables, tx: Tables)
    requires OnlyStates(start.groups, tx.groups)
    ensures RecomputeGroups(tx).groups == RecomputeGroups(tx.(groups := start.groups)).groups
  {
    hide Settled;
  }

  lemma ExpiredMaps(start: Tables, middle: Tables, rows: map<Id, Assignment>, retry: Retry, now: Time)
    requires RetryOk(retry) && PartlyExpired(start, middle, retry, now, {}) && OverduePartly(middle.assignments, rows, now, {})
    ensures middle == start.(leases := middle.leases, assignments := middle.assignments)
    ensures middle.leases == map l | l in start.leases :: LeaseAfterExpiry(start, now, l)
    ensures rows == map a | a in start.assignments :: AssignmentAfterExpiry(start, retry, now, a)
  {
    hide AssignmentAfterExpiry;
    hide LeaseAfterExpiry;
    hide OverdueFailed;
    forall a | a in start.assignments ensures rows[a] == AssignmentAfterExpiry(start, retry, now, a) {
      NotOverdueTwice(start, retry, now, a);
    }
  }

  /** `_expire_leases` as the source writes it equals its row-by-row meaning. */
  method ExpireAll(start: Tables, retry: Retry, now: Time) returns (tx: Tables)
    requires RowsOk(start) && LinksOk(start) && HeldOk(start) && RetryOk(retry)
    ensures tx == Expired(start, retry, now)
  {
    hide AssignmentAfterExpiry;
    hide LeaseAfterExpiry;
    hide PartlyExpired;
    hide OverduePartly;
    hide RowsOk;
    hide LinksOk;
    hide HeldOk;
    tx := ExpireDue(start, retry, now);
    ghost var middle := tx;
    tx := FailOverdue(tx, now);
    ExpiredMaps(start, middle, tx.assignments, retry, now);
    RecomputedSame(start, tx);
    tx := RecomputeAll(tx);
  }

  // ---------------------------------------------------------------- cancelling stale groups

  predicate HeldIn(start: Tables, l: Id, g: Id)
    requires l in start.leases
  {
    var a := start.leases[l].assignment;
    a in start.assignments && start.assignments[a].group == g && start.assignments[a].state.Leased?
    && start.assignments[a].current == Some(l)
  }

  function Marked(l: Lease): Lease {
    if l.notice.NotCancelled? then l.(notice := Requested) else l
  }

  ghost predicate MembersPartly(start: Tables, rows: map<Id, Assignment>, g: Id, now: Time, todo: set<Id>) {
    rows.Keys == start.assignments.Keys
    && forall a :: a in start.assignments ==>
         rows[a] == if start.assignments[a].group == g && a !in todo then RowAfterCancel(start.assignments[a], now)
                    else start.assignments[a]
  }

  ghost predicate MarkedPartly(start: Tables, leases: map<Id, Lease>, g: Id, todo: set<Id>) {
    leases.Keys == start.leases.Keys
    && forall l :: l in start.leases ==>
         leases[l] == if HeldIn(start, l, g) && start.leases[l].assignment !in todo then Marked(start.leases[l])
                      else start.leases[l]
  }

  function OpenMembers(start: Tables, g: Id): set<Id> {
    set a | a in start.assignments && start.assignments[a].group == g && !Terminal(start.assignments[a])
  }

  lemma StartMembers(start: Tables, g: Id, now: Time)
    ensures MembersPartly(start, start.assignments, g, now, OpenMembers(start, g))
    ensures MarkedPartly(start, start.leases, g, OpenMembers(start, g))
  {
  }

  lemma CancelOne(start: Tables, rows: map<Id, Assignment>, g: Id, now: Time, todo: set<Id>, a: Id)
    requires MembersPartly(start, rows, g, now, todo) && a in todo && a in start.assignments && start.assignments[a].group == g
    ensures MembersPartly(start, rows[a := RowAfterCancel(start.assignments[a], now)], g, now, todo - {a})
  {
    hide RowAfterCancel;
  }

  method CancelMembers(start: Tables, g: Id, now: Time) returns (tx: Tables)
    requires HeldOk(start)
    ensures tx == start.(assignments := tx.assignments, leases := tx.leases)
    ensures MembersPartly(start, tx.assignments, g, now, {}) && MarkedPartly(start, tx.leases, g, {})
  {
    hide MarkedPartly;
    hide MembersPartly;
    hide HeldOk;
    hide RowAfterCancel;
    hide Marked;
    tx := start;
    var todo := OpenMembers(start, g);
    StartMembers(start, g, now);
    while todo != {}
      invariant todo <= OpenMembers(start, g)
      invariant tx == start.(assignments := tx.assignments, leases := tx.leases)
      invariant MembersPartly(start, tx.assignments, g, now, todo) && MarkedPartly(start, tx.leases, g, todo)
    {
      var a :| a in todo;
      var row := start.assignments[a];
      CancelOne(start, tx.assignments, g, now, todo, a);
      MarkOne(start, tx.leases, g, todo, a);
      tx := tx.(assignments := tx.assignments[a := RowAfterCancel(row, now)]);
      if row.state.Leased? && row.current.Some? && row.current.value in tx.leases {
        tx := tx.(leases := tx.leases[row.current.value := Marked(tx.leases[row.current.value])]);
      }
      todo := todo - {a};
    }
  }

  lemma MarkOne(start: Tables, leases: map<Id, Lease>, g: Id, todo: set<Id>, a: Id)
    requires HeldOk(start) && a in todo && a in start.assignments && start.assignments[a].group == g
    requires MarkedPartly(start, leases, g, todo)
    ensures var row := start.assignments[a];
            MarkedPartly(start, if row.state.Leased? && row.current.Some? && row.current.value in leases
                                then leases[row.current.value := Marked(leases[row.current.value])] else leases, g, todo - {a})
  {
    var row := start.assignments[a];
    if row.current.Some? { SoleHolder(start, a, row.current.value); }
    hide HeldOk;
  }

  function StaleGroups(tx: Tables, lag: nat): set<Id> {
    set g | g in tx.groups && StaleGroup(tx, lag, g)
  }

  ghost predicate GroupsPartly(start: Tables, tx: Tables, lag: nat, now: Time, todo: set<Id>) {
    && tx == start.(assignments := tx.assignments, leases := tx.leases, groups := tx.groups)
    && tx.assignments.Keys == start.assignments.Keys && tx.leases.Keys == start.leases.Keys && tx.groups.Keys == start.groups.Keys
    && (forall a :: a in start.assignments ==>
          tx.assignments[a] == if start.assignments[a].group in todo then start.assignments[a]
                               else AssignmentAfterCancel(start, lag, now, a))
    && (forall l :: l in start.leases ==>
          tx.leases[l] == if start.leases[l].assignment in start.assignments
                             && start.assignments[start.leases[l].assignment].group in todo then start.leases[l]
                          else LeaseAfterCancel(start, lag, l))
  }

  ghost predicate StatesPartly(start: Tables, groups: map<Id, Group>, lag: nat, now: Time, todo: set<Id>) {
    groups.Keys == start.groups.Keys
    && forall g :: g in start.groups ==> groups[g] == if g in todo then start.groups[g] else Cancelled(start, lag, now).groups[g]
  }

  lemma StartCancel(start: Tables, lag: nat, now: Time)
    ensures GroupsPartly(start, start, lag, now, StaleGroups(start, lag))
    ensures StatesPartly(start, start.groups, lag, now, StaleGroups(start, lag))
  {
    hide RowAfterCancel;
    hide Settled;
  }

  lemma EndCancel(start: Tables, tx: Tables, lag: nat, now: Time)
    requires GroupsPartly(start, tx, lag, now, {}) && StatesPartly(start, tx.groups, lag, now, {})
    ensures tx == Cancelled(start, lag, now)
  {
    hide RowAfterCancel;
    hide Settled;
    hide LeaseAfterCancel;
    hide AssignmentAfterCancel;
    hide StaleGroup;
    assert tx.assignments == Cancelled(start, lag, now).assignments;
    assert tx.leases == Cancelled(start, lag, now).leases;
    assert tx.groups == Cancelled(start, lag, now).groups;
  }

  /** Before its turn a stale group's rows, and the leases they hold, are as they were selected. */
  lemma HeldBefore(start: Tables, tx: Tables, lag: nat, now: Time, todo: set<Id>)
    requires RowsOk(start) && HeldOk(start) && GroupsPartly(start, tx, lag, now, todo)
    ensures RowsOk(tx) && HeldOk(tx)
  {
    hide AssignmentAfterCancel;
    hide LeaseAfterCancel;
    hide RowOk;
    hide RowEvolves;
    forall a | a in start.assignments ensures QuietRow(start.assignments[a], tx.assignments[a]) {
      CancelledRow(start, lag, now, a);
      UnchangedRow(start.assignments[a]);
    }
    forall a | a in start.assignments ensures SameRowInputs(start.assignments[a], tx.assignments[a]) {
      EvolvedInputs(start.assignments[a], tx.assignments[a]);
    }
    forall l | l in start.leases ensures SameLeaseInputs(start.leases[l], tx.leases[l]) {
      CancelledInputs(start, lag, l);
    }
    HeldKept(start, tx);
  }

  lemma CancelledInputs(start: Tables, lag: nat, l: Id)
    requires l in start.leases
    ensures SameLeaseInputs(start.leases[l], LeaseAfterCancel(start, lag, l))
  {
  }

  lemma CancelGroupStep(start: Tables, before: Tables, tx: Tables, lag: nat, now: Time, todo: set<Id>, g: Id)
    requires GroupsPartly(start, before, lag, now, todo) && g in todo && todo <= StaleGroups(start, lag)
    requires tx == before.(assignments := tx.assignments, leases := tx.leases)
    requires MembersPartly(before, tx.assignments, g, now, {}) && MarkedPartly(before, tx.leases, g, {})
    ensures GroupsPartly(start, tx, lag, now, todo - {g})
  {
    CancelRowsStep(start, before, tx, lag, now, todo, g);
    CancelLeasesStep(start, before, tx, lag, now, todo, g);
  }

  lemma CancelRowsStep(start: Tables, before: Tables, tx: Tables, lag: nat, now: Time, todo: set<Id>, g: Id)
    requires GroupsPartly(start, before, lag, now, todo) && g in todo && todo <= StaleGroups(start, lag)
    requires tx == before.(assignments := tx.assignments, leases := tx.leases)
    requires MembersPartly(before, tx.assignments, g, now, {})
    ensures tx.assignments.Keys == start.assignments.Keys
    ensures forall a :: a in start.assignments ==>
      tx.assignments[a] == if start.assignments[a].group in todo - {g} then start.assignments[a]
                           else AssignmentAfterCancel(start, lag, now, a)
  {
    forall a | a in start.assignments
      ensures tx.assignments[a] == if start.assignments[a].group in todo - {g} then start.assignments[a]
                                   else AssignmentAfterCancel(start, lag, now, a)
    {
      GroupUnchanged(start, lag, now, a);
      hide RowAfterCancel;
      hide StaleGroup;
    }
  }

  lemma GroupUnchanged(start: Tables, lag: nat, now: Time, a: Id)
    requires a in start.assignments
    ensures AssignmentAfterCancel(start, lag, now, a).group == start.assignments[a].group
  {
  }

  lemma CancelLeasesStep(start: Tables, before: Tables, tx: Tables, lag: nat, now: Time, todo: set<Id>, g: Id)
    requires GroupsPartly(start, before, lag, now, todo) && g in todo && todo <= StaleGroups(start, lag)
    requires MarkedPartly(before, tx.leases, g, {})
    ensures tx.leases.Keys == start.leases.Keys
    ensures forall l :: l in start.leases ==>
      tx.leases[l] == if start.leases[l].assignment in start.assignments
                         && start.assignments[start.leases[l].assignment].group in todo - {g} then start.leases[l]
                      else LeaseAfterCancel(start, lag, l)
  {
    forall l | l in start.leases
      ensures tx.leases[l] == if start.leases[l].assignment in start.assignments
                                 && start.assignments[start.leases[l].assignment].group in todo - {g} then start.leases[l]
                              else LeaseAfterCancel(start, lag, l)
    {
      CancelLeaseStep(start, before, tx, lag, now, todo, g, l);
    }
  }

  lemma CancelLeaseStep(start: Tables, before: Tables, tx: Tables, lag: nat, now: Time, todo: set<Id>, g: Id, l: Id)
    requires GroupsPartly(start, before, lag, now, todo) && g in todo && todo <= StaleGroups(start, lag)
    requires MarkedPartly(before, tx.leases, g, {}) && l in start.leases
    ensures l in tx.leases
    ensures tx.leases[l] == if start.leases[l].assignment in start.assignments
                               && start.assignments[start.leases[l].assignment].group in todo - {g} then start.leases[l]
                            else LeaseAfterCancel(start, lag, l)
  {
    var a := start.leases[l].assignment;
    CancelledInputs(start, lag, l);
    assert before.leases[l].assignment == a;
    if a in start.assignments {
      GroupUnchanged(start, lag, now, a);
      if start.assignments[a].group == g {
        assert before.assignments[a] == start.assignments[a];
      }
    }
    hide RowAfterCancel;
    hide AssignmentAfterCancel;
    hide StaleGroup;
  }

  lemma CancelStateStep(start: Tables, tx: Tables, lag: nat, now: Time, todo: set<Id>, g: Id)
    requires GroupsPartly(start, tx, lag, now, todo - {g}) && StatesPartly(start, tx.groups, lag, now, todo)
    requires g in todo && todo <= StaleGroups(start, lag)
    ensures StatesPartly(start, RecomputeGroup(tx, g).groups, lag, now, todo - {g})
    ensures GroupsPartly(start, RecomputeGroup(tx, g), lag, now, todo - {g})
  {
    hide LeaseAfterCancel;
    hide AssignmentAfterCancel;
    hide Settled;
    SettledAlike(start, tx, lag, now, todo, g);
  }

  lemma SettledAlike(start: Tables, tx: Tables, lag: nat, now: Time, todo: set<Id>, g: Id)
    requires GroupsPartly(start, tx, lag, now, todo - {g})
    ensures Settled(tx.assignments, g) <==> Settled(Cancelled(start, lag, now).assignments, g)
  {
    var to := Cancelled(start, lag, now).assignments;
    forall a | a in start.assignments
      ensures tx.assignments[a].group == start.assignments[a].group == to[a].group
      ensures start.assignments[a].group == g ==> tx.assignments[a] == to[a]
    {
      GroupUnchanged(start, lag, now, a);
      hide AssignmentAfterCancel;
      hide LeaseAfterCancel;
    }
    hide AssignmentAfterCancel;
  }

  /** `_cancel_stale_train_groups` as the source writes it equals its row-by-row meaning. */
  method CancelStale(start: Tables, lag: nat, now: Time) returns (tx: Tables)
    requires RowsOk(start) && HeldOk(start)
    ensures tx == Cancelled(start, lag, now)
  {
    hide RowsOk;
    hide HeldOk;
    hide GroupsPartly;
    hide StatesPartly;
    hide MembersPartly;
    hide MarkedPartly;
    hide RecomputeGroup;
    hide Cancelled;
    tx := start;
    var todo := StaleGroups(start, lag);
    StartCancel(start, lag, now);
    while todo != {}
      invariant todo <= StaleGroups(start, lag)
      invariant GroupsPartly(start, tx, lag, now, todo) && StatesPartly(start, tx.groups, lag, now, todo)
    {
      var g :| g in todo;
      HeldBefore(start, tx, lag, now, todo);
      var before := tx;
      tx := CancelMembers(tx, g, now);
      CancelGroupStep(start, before, tx, lag, now, todo, g);
      CancelStateStep(start, tx, lag, now, todo, g);
      tx := RecomputeGroup(tx, g);
      todo := todo - {g};
    }
    EndCancel(start, tx, lag, now);
  }

  // ---------------------------------------------------------------- selections

  /** The first row of a selection ordered by sequence, group index and identity. */
  method SelectFirst(tx: Tables, s: set<Id>) returns (a: Id)
    requires s != {}
    ensures a == First(tx, s)
  {
    a :| a in s;
    var todo := s - {a};
    while todo != {}
      invariant todo <= s && a in s && a !in todo
      invariant forall b :: b in s && b !in todo && b != a ==> Before(tx, a, b)
    {
      var b :| b in todo;
      if Before(tx, b, a) { a := b; }
      todo := todo - {b};
    }
    assert IsFirst(tx, s, a);
    assert IsFirst(tx, s, First(tx, s));
  }

  /** The source with the least virtual finish, ties by identity. */
  method SelectNext(sources: map<Id, Source>, among: set<Id>) returns (s: Id)
    requires among != {} && among <= sources.Keys
    ensures s == Next(sources, among)
  {
    s :| s in among;
    var todo := among - {s};
    while todo != {}
      invariant todo <= among && s in among && s !in todo
      invariant forall t :: t in among && t !in todo && t != s ==> Ahead(sources, s, t)
    {
      var t :| t in todo;
      if Ahead(sources, t, s) { s := t; }
      todo := todo - {t};
    }
    assert IsNext(sources, among, s);
    assert IsNext(sources, among, Next(sources, among));
  }

  // ---------------------------------------------------------------- heartbeats

  ghost predicate Beaten(d: Tables, leases: map<Id, Lease>, ids: seq<Id>, now: Time, duration: real) {
    leases.Keys == d.leases.Keys && forall l :: l in d.leases ==> leases[l] == LeaseAfterBeat(d, ids, now, duration, l)
  }

  /** The loop over a heartbeat's leases: deliver cancellations, renew what can be renewed, stop the rest. */
  method BeatLeases(d: Tables, ids: seq<Id>, now: Time, duration: real) returns (leases: map<Id, Lease>, answer: HeartbeatAnswer)
    requires LinksOk(d)
    ensures leases == map l | l in d.leases :: LeaseAfterBeat(d, ids, now, duration, l)
    ensures answer == Answer(d, ids, now, duration)
  {
    hide BeatLease;
    hide LinkOk;
    leases := d.leases;
    answer := HeartbeatAnswer([], []);
    for i := 0 to |ids|
      invariant Beaten(d, leases, ids[..i], now, duration)
      invariant answer == Answer(d, ids[..i], now, duration)
    {
      var id := ids[i];
      assert ids[..i + 1][..i] == ids[..i];
      BeatNext(d, leases, ids, i, now, duration);
      if id in d.leases {
        var lease, row := d.leases[id], d.assignments[d.leases[id].assignment];
        leases := leases[id := BeatLease(lease, row, now, duration)];
        if lease.notice.NotCancelled? && Renewable(lease, row, now) {
          answer := answer.(renewals := answer.renewals + [Renewal(lease.assignment, id, ExtendedTo(lease, row, now, duration))]);
        } else {
          answer := answer.(stops := answer.stops + [id]);
        }
      } else {
        answer := answer.(stops := answer.stops + [id]);
      }
    }
    assert ids[..|ids|] == ids;
  }

  lemma BeatNext(d: Tables, leases: map<Id, Lease>, ids: seq<Id>, i: nat, now: Time, duration: real)
    requires LinksOk(d) && i < |ids| && Beaten(d, leases, ids[..i], now, duration)
    ensures Beaten(d, if ids[i] in d.leases
                      then leases[ids[i] := BeatLease(d.leases[ids[i]], d.assignments[d.leases[ids[i]].assignment], now, duration)]
                      else leases, ids[..i + 1], now, duration)
  {
    hide BeatLease;
    hide LinkOk;
    forall l ensures l in ids[..i + 1] <==> l in ids[..i] || l == ids[i] {
    }
  }

  // ---------------------------------------------------------------- group rows

  /** The assignment inserts of a new group, in group-index order. */
  method InsertRows(spec: SourceSpec, policy: Id, g: Id, ids: nat -> Id, now: Time) returns (rows: map<Id, Assignment>)
    ensures rows == NewRows(spec, policy, g, ids, now, spec.groupSize)
  {
    rows := map[];
    for index := 0 to spec.groupSize
      invariant rows == NewRows(spec, policy, g, ids, now, index)
    {
      rows := rows[ids(index + 1) := NewRow(spec, policy, g, index, now)];
    }
  }

  /** Whether the identities of a new group are unused. */
  method IdsAreFresh(tx: Tables, ids: nat -> Id, n: nat) returns (ok: bool)
    ensures ok <==> FreshIds(tx, ids, n)
  {
    if ids(0) in tx.groups { return false; }
    var seen: set<Id> := {};
    for i := 0 to n
      invariant seen == set j | 1 <= j <= i :: ids(j)
      invariant FreshIds(tx, ids, i)
    {
      if ids(i + 1) in tx.assignments || ids(i + 1) in seen { return false; }
      seen := seen + {ids(i + 1)};
    }
    return true;
  }
}
