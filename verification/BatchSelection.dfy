/** Emission of policy-homogeneous training batches from the waiting rollouts. */
module BatchSelection {
  import opened Wrappers
  import opened CoordinatorTables
  import opened TrainingLedger

  // ---------------------------------------------------------------- the waiting rollouts, in order

  function IdentityOf(s: Ledger, k: Key): Identity {
    if k.group in s.groups then
      var payload := s.groups[k.group].payload;
      Identity(payload.policy.version, if payload.adapter.Some? then AdapterHash(payload.adapter.value) else PolicyHash(payload.policy))
    else Identity(0, AdapterHash(0))
  }

  function PayloadOf(s: Ledger, k: Key): RolloutPayload {
    if k.group in s.groups && k.ordinal < |s.groups[k.group].payload.rollouts| then s.groups[k.group].payload.rollouts[k.ordinal]
    else RolloutPayload([], 0)
  }

  function TokensOf(s: Ledger, k: Key): nat { PayloadOf(s, k).tokens }

  function Tokens(s: Ledger, ks: seq<Key>): nat {
    if ks == [] then 0 else Tokens(s, ks[..|ks| - 1]) + TokensOf(s, ks[|ks| - 1])
  }

  function SequenceOf(s: Ledger, k: Key): nat {
    if k.group in s.groups then s.groups[k.group].sequence else 0
  }

  /** ORDER BY sequence, ordinal, group_id. */
  predicate Precedes(s: Ledger, k: Key, l: Key) {
    || SequenceOf(s, k) < SequenceOf(s, l)
    || (SequenceOf(s, k) == SequenceOf(s, l) && (k.ordinal < l.ordinal || (k.ordinal == l.ordinal && k.group < l.group)))
  }

  ghost predicate Listed(s: Ledger, ks: seq<Key>, among: set<Key>) {
    && (forall k :: k in ks <==> k in among)
    && (forall i, j :: 0 <= i < j < |ks| ==> Precedes(s, ks[i], ks[j]))
  }

  /** `pending_processed_rollouts`. */
  method ListWaiting(s: Ledger) returns (ks: seq<Key>)
    ensures Listed(s, ks, Waits(s))
  {
    ks := [];
    var todo := Waits(s);
    while todo != {}
      invariant todo <= Waits(s)
      invariant Listed(s, ks, Waits(s) - todo)
      invariant forall i, k :: 0 <= i < |ks| && k in todo ==> Precedes(s, ks[i], k)
    {
      var least :| least in todo;
      var rest := todo - {least};
      while rest != {}
        invariant rest <= todo && least in todo && least !in rest
        invariant forall k :: k in todo && k !in rest && k != least ==> Precedes(s, least, k)
      {
        var k :| k in rest;
        if Precedes(s, k, least) { least := k; }
        rest := rest - {k};
      }
      ks := ks + [least];
      todo := todo - {least};
    }
  }

  // ---------------------------------------------------------------- selection

  function Of(s: Ledger, ks: seq<Key>, x: Identity): seq<Key> {
    if ks == [] then []
    else
      var last := ks[|ks| - 1];
      Of(s, ks[..|ks| - 1], x) + (if IdentityOf(s, last) == x then [last] else [])
  }

  lemma {:induction false} OfMembers(s: Ledger, ks: seq<Key>, x: Identity)
    ensures forall k :: k in Of(s, ks, x) <==> k in ks && IdentityOf(s, k) == x
  {
    if ks != [] {
      OfMembers(s, ks[..|ks| - 1], x);
      assert ks == ks[..|ks| - 1] + [ks[|ks| - 1]];
    }
  }

  predicate Enough(s: Ledger, limit: Limit, ks: seq<Key>) {
    if limit.BySize? then |ks| >= limit.n else Tokens(s, ks) >= limit.n
  }

  /** The position of the first rollout of identity `x`. */
  predicate StartsAt(s: Ledger, ks: seq<Key>, x: Identity, i: nat) {
    i < |ks| && IdentityOf(s, ks[i]) == x && forall j :: 0 <= j < i ==> IdentityOf(s, ks[j]) != x
  }

  predicate IsReady(s: Ledger, limit: Limit, ks: seq<Key>, x: Identity) {
    Enough(s, limit, Of(s, ks, x))
  }

  /** The shortest prefix of `ks` that is enough. */
  predicate Shortest(s: Ledger, limit: Limit, ks: seq<Key>, chosen: seq<Key>) {
    chosen <= ks && Enough(s, limit, chosen) && forall m :: 0 <= m < |chosen| ==> !Enough(s, limit, ks[..m])
  }

  ghost predicate Earliest(s: Ledger, limit: Limit, ks: seq<Key>, x: Identity) {
    && IsReady(s, limit, ks, x)
    && exists i :: StartsAt(s, ks, x, i)
         && forall y, j :: IsReady(s, limit, ks, y) && StartsAt(s, ks, y, j) ==> i <= j
  }

  ghost predicate NoneReady(s: Ledger, limit: Limit, ks: seq<Key>) {
    forall x :: !IsReady(s, limit, ks, x)
  }

  ghost predicate Selected(s: Ledger, limit: Limit, ks: seq<Key>, chosen: seq<Key>) {
    if chosen == [] then NoneReady(s, limit, ks)
    else exists x :: Earliest(s, limit, ks, x) && Shortest(s, limit, Of(s, ks, x), chosen)
  }

  lemma EnoughNonempty(s: Ledger, limit: Limit, ks: seq<Key>)
    requires limit.n >= 1 && Enough(s, limit, ks)
    ensures ks != []
  {
  }

  predicate EntryOk(s: Ledger, ks: seq<Key>, x: Identity, part: seq<Key>, count: nat, start: nat) {
    part == Of(s, ks, x) && count == Tokens(s, part) && StartsAt(s, ks, x, start)
  }

  /** The three dictionaries the source builds in one pass. */
  ghost predicate Partitioned(s: Ledger, ks: seq<Key>, partitions: map<Identity, seq<Key>>, tokens: map<Identity, nat>, first: map<Identity, nat>) {
    && partitions.Keys == tokens.Keys == first.Keys
    && (forall x :: x in partitions ==> EntryOk(s, ks, x, partitions[x], tokens[x], first[x]))
    && (forall x :: x !in partitions ==> Of(s, ks, x) == [])
  }

  lemma OfNext(s: Ledger, ks: seq<Key>, i: nat, y: Identity)
    requires i < |ks|
    ensures Of(s, ks[..i + 1], y) == Of(s, ks[..i], y) + (if IdentityOf(s, ks[i]) == y then [ks[i]] else [])
  {
    assert ks[..i + 1][..i] == ks[..i];
  }

  lemma EntryKept(s: Ledger, ks: seq<Key>, i: nat, y: Identity, part: seq<Key>, count: nat, start: nat)
    requires i < |ks| && EntryOk(s, ks[..i], y, part, count, start) && IdentityOf(s, ks[i]) != y
    ensures EntryOk(s, ks[..i + 1], y, part, count, start)
  {
    hide IdentityOf;
    hide StartsAt;
    hide Of;
    hide Tokens;
    OfNext(s, ks, i, y);
    StartsNext(s, ks, i, y, start);
  }

  lemma TokensNext(s: Ledger, part: seq<Key>, k: Key)
    ensures Tokens(s, part + [k]) == Tokens(s, part) + TokensOf(s, k)
  {
    assert (part + [k])[..|part|] == part;
  }

  lemma StartsNext(s: Ledger, ks: seq<Key>, i: nat, x: Identity, start: nat)
    requires i < |ks| && StartsAt(s, ks[..i], x, start)
    ensures StartsAt(s, ks[..i + 1], x, start)
  {
    hide IdentityOf;
  }

  lemma EntryGrown(s: Ledger, ks: seq<Key>, i: nat, part: seq<Key>, count: nat, start: nat)
    requires i < |ks| && EntryOk(s, ks[..i], IdentityOf(s, ks[i]), part, count, start)
    ensures EntryOk(s, ks[..i + 1], IdentityOf(s, ks[i]), part + [ks[i]], count + TokensOf(s, ks[i]), start)
  {
    hide IdentityOf;
    hide TokensOf;
    hide StartsAt;
    hide Of;
    hide Tokens;
    OfNext(s, ks, i, IdentityOf(s, ks[i]));
    TokensNext(s, part, ks[i]);
    StartsNext(s, ks, i, IdentityOf(s, ks[i]), start);
  }

  lemma EntryNew(s: Ledger, ks: seq<Key>, i: nat)
    requires i < |ks| && Of(s, ks[..i], IdentityOf(s, ks[i])) == []
    ensures EntryOk(s, ks[..i + 1], IdentityOf(s, ks[i]), [ks[i]], TokensOf(s, ks[i]), i)
  {
    hide IdentityOf;
    hide TokensOf;
    var x := IdentityOf(s, ks[i]);
    OfNext(s, ks, i, x);
    OfMembers(s, ks[..i], x);
    forall j | 0 <= j < i ensures IdentityOf(s, ks[j]) != x { assert ks[j] in ks[..i]; }
    hide Of;
    TokensNext(s, [], ks[i]);
    assert [] + [ks[i]] == [ks[i]];
  }

  lemma PartitionNext(s: Ledger, ks: seq<Key>, i: nat, partitions: map<Identity, seq<Key>>, tokens: map<Identity, nat>, first: map<Identity, nat>)
    requires i < |ks| && Partitioned(s, ks[..i], partitions, tokens, first)
    ensures var k := ks[i];
            var x := IdentityOf(s, k);
            var rest := if x in partitions then partitions[x] else [];
            var count := if x in tokens then tokens[x] else 0;
            Partitioned(s, ks[..i + 1], partitions[x := rest + [k]], tokens[x := count + TokensOf(s, k)],
                        if x in first then first else first[x := i])
  {
    hide IdentityOf;
    hide TokensOf;
    hide EntryOk;
    hide Of;
    var x := IdentityOf(s, ks[i]);
    assert [] + [ks[i]] == [ks[i]];
    if x in partitions { EntryGrown(s, ks, i, partitions[x], tokens[x], first[x]); } else { EntryNew(s, ks, i); }
    forall y | y in partitions && y != x ensures EntryOk(s, ks[..i + 1], y, partitions[y], tokens[y], first[y]) {
      EntryKept(s, ks, i, y, partitions[y], tokens[y], first[y]);
    }
    forall y | y !in partitions && y != x ensures Of(s, ks[..i + 1], y) == [] { OfNext(s, ks, i, y); }
  }

  lemma PartitionStart(s: Ledger)
    ensures Partitioned(s, [], map[], map[], map[])
  {
  }

  method Partition(s: Ledger, ks: seq<Key>)
      returns (partitions: map<Identity, seq<Key>>, tokens: map<Identity, nat>, first: map<Identity, nat>)
    ensures Partitioned(s, ks, partitions, tokens, first)
  {
    hide Partitioned;
    hide IdentityOf;
    hide TokensOf;
    partitions, tokens, first := map[], map[], map[];
    PartitionStart(s);
    assert ks[..0] == [];
    for i := 0 to |ks|
      invariant Partitioned(s, ks[..i], partitions, tokens, first)
    {
      PartitionNext(s, ks, i, partitions, tokens, first);
      var k := ks[i];
      var x := IdentityOf(s, k);
      var rest := if x in partitions then partitions[x] else [];
      var count := if x in tokens then tokens[x] else 0;
      if x !in first { first := first[x := i]; }
      partitions := partitions[x := rest + [k]];
      tokens := tokens[x := count + TokensOf(s, k)];
    }
    assert ks[..|ks|] == ks;
  }

  /** Grows the batch until it is enough. */
  method TakeShortest(s: Ledger, limit: Limit, ks: seq<Key>) returns (chosen: seq<Key>)
    requires limit.n >= 1 && Enough(s, limit, ks)
    ensures Shortest(s, limit, ks, chosen) && chosen != []
  {
    var count := 0;
    chosen := [];
    EnoughNonempty(s, limit, ks);
    assert ks[..|ks|] == ks;
    for i := 0 to |ks|
      invariant chosen == ks[..i] && count == Tokens(s, chosen)
      invariant forall m :: 0 <= m <= i ==> !Enough(s, limit, ks[..m])
    {
      assert ks[..i + 1][..i] == ks[..i];
      chosen := chosen + [ks[i]];
      assert chosen == ks[..i + 1];
      count := count + TokensOf(s, ks[i]);
      if (if limit.BySize? then |chosen| >= limit.n else count >= limit.n) { return; }
    }
    assert false;
  }

  /** `_select_policy_homogeneous_batch`. */
  method Select(s: Ledger, limit: Limit, ks: seq<Key>) returns (chosen: seq<Key>)
    requires limit.n >= 1
    ensures Selected(s, limit, ks, chosen)
  {
    var partitions, tokens, first := Partition(s, ks);
    hide IdentityOf;
    hide Tokens;
    hide Of;
    var ready := set x | x in partitions && (if limit.BySize? then |partitions[x]| >= limit.n else tokens[x] >= limit.n);
    assert forall x :: x in ready <==> IsReady(s, limit, ks, x) by {
      ReadyListed(s, limit, ks, partitions, tokens, first);
    }
    if ready == {} { return []; }
    var x :| x in ready;
    var todo := ready - {x};
    while todo != {}
      invariant todo <= ready && x in ready
      invariant forall y :: y in ready && y !in todo ==> first[x] <= first[y]
    {
      var y :| y in todo;
      if first[y] < first[x] { x := y; }
      todo := todo - {y};
    }
    EarliestFound(s, limit, ks, partitions, tokens, first, x);
    chosen := TakeShortest(s, limit, partitions[x]);
  }

  lemma ReadyListed(s: Ledger, limit: Limit, ks: seq<Key>, partitions: map<Identity, seq<Key>>, tokens: map<Identity, nat>, first: map<Identity, nat>)
    requires limit.n >= 1 && Partitioned(s, ks, partitions, tokens, first)
    ensures forall x ::
      IsReady(s, limit, ks, x) <==> x in partitions && (if limit.BySize? then |partitions[x]| >= limit.n else tokens[x] >= limit.n)
  {
    hide Of;
    hide IdentityOf;
  }

  lemma StartUnique(s: Ledger, ks: seq<Key>, x: Identity, i: nat, j: nat)
    requires StartsAt(s, ks, x, i) && StartsAt(s, ks, x, j)
    ensures i == j
  {
  }

  lemma EarliestFound(s: Ledger, limit: Limit, ks: seq<Key>, partitions: map<Identity, seq<Key>>, tokens: map<Identity, nat>,
                      first: map<Identity, nat>, x: Identity)
    requires limit.n >= 1 && Partitioned(s, ks, partitions, tokens, first)
    requires x in partitions && IsReady(s, limit, ks, x)
    requires forall y :: IsReady(s, limit, ks, y) && y in partitions ==> first[x] <= first[y]
    ensures Earliest(s, limit, ks, x)
  {
    ReadyListed(s, limit, ks, partitions, tokens, first);
    hide Of;
    hide IdentityOf;
    hide IsReady;
    forall y, j | IsReady(s, limit, ks, y) && StartsAt(s, ks, y, j) ensures first[x] <= j {
      StartUnique(s, ks, y, first[y], j);
    }
    assert StartsAt(s, ks, x, first[x]);
  }
}
