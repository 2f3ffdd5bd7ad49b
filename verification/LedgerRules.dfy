/** Which rollouts wait, are selected, dropped and recorded, in the columns of the ledger alone. */
module LedgerRules {
  import opened Wrappers
  import opened CoordinatorTables
  import opened TrainingLedger
  import opened BatchSelection
  import opened BatchEmission

  /** The rollout is known: its group is recorded and has this many rollouts. */
  predicate Known(s: Ledger, k: Key) {
    k.group in s.groups && k.ordinal < |s.groups[k.group].payload.rollouts|
  }

  /** By group sequence, then ordinal, then group. */
  predicate Sooner(s: Ledger, k: Key, l: Key)
    requires Known(s, k) && Known(s, l)
  {
    var i, j := s.groups[k.group].sequence, s.groups[l.group].sequence;
    i < j || (i == j && k.ordinal < l.ordinal) || (i == j && k.ordinal == l.ordinal && k.group < l.group)
  }

  /** The same policy version with the same adapter, or without adapters the same policy. */
  predicate Together(s: Ledger, k: Key, l: Key)
    requires Known(s, k) && Known(s, l)
  {
    var p, q := s.groups[k.group].payload, s.groups[l.group].payload;
    && p.policy.version == q.policy.version
    && p.adapter == q.adapter && (p.adapter.None? ==> p.policy == q.policy)
  }

  predicate AllKnown(s: Ledger, ks: seq<Key>) {
    forall i :: 0 <= i < |ks| ==> Known(s, ks[i])
  }

  lemma WaitingKnown(s: Ledger, ks: seq<Key>)
    requires PlacesOk(s) && Listed(s, ks, Waits(s))
    ensures AllKnown(s, ks)
  {
    hide Precedes;
    forall i | 0 <= i < |ks| ensures Known(s, ks[i]) { assert ks[i] in ks; }
  }

  /** The listing is of exactly the rollouts that wait, by sequence, ordinal and group. */
  lemma ListedInOrder(s: Ledger, ks: seq<Key>)
    requires PlacesOk(s) && Listed(s, ks, Waits(s))
    ensures AllKnown(s, ks)
    ensures forall k :: k in ks <==> k in s.places && s.places[k] == Unbatched
    ensures forall i, j :: 0 <= i < j < |ks| ==> Sooner(s, ks[i], ks[j])
  {
    WaitingKnown(s, ks);
    forall i, j | 0 <= i < j < |ks| ensures Sooner(s, ks[i], ks[j]) { SoonerIs(s, ks[i], ks[j]); }
    hide Precedes;
    hide Sooner;
  }

  lemma SoonerIs(s: Ledger, k: Key, l: Key)
    requires Known(s, k) && Known(s, l)
    ensures Precedes(s, k, l) <==> Sooner(s, k, l)
  {
  }

  lemma TogetherIs(s: Ledger, k: Key, l: Key)
    requires Known(s, k) && Known(s, l)
    ensures IdentityOf(s, k) == IdentityOf(s, l) <==> Together(s, k, l)
  {
  }

  // ---------------------------------------------------------------- the selection

  /** Those of the listing that belong together with `k`, in order. */
  function Alike(s: Ledger, ks: seq<Key>, k: Key): seq<Key>
    requires AllKnown(s, ks) && Known(s, k)
  {
    if ks == [] then []
    else Alike(s, ks[..|ks| - 1], k) + if Together(s, ks[|ks| - 1], k) then [ks[|ks| - 1]] else []
  }

  function TokenSum(s: Ledger, ks: seq<Key>): nat
    requires AllKnown(s, ks)
  {
    if ks == [] then 0
    else TokenSum(s, ks[..|ks| - 1]) + s.groups[ks[|ks| - 1].group].payload.rollouts[ks[|ks| - 1].ordinal].tokens
  }

  /** Rollouts for a batch limited by size are as many as it asks, and for one limited by tokens they have as many. */
  predicate Reached(s: Ledger, limit: Limit, ks: seq<Key>)
    requires AllKnown(s, ks)
  {
    match limit
    case BySize(n) => n <= |ks|
    case ByTokens(n) => n <= TokenSum(s, ks)
  }

  lemma {:induction false} TokensAre(s: Ledger, ks: seq<Key>)
    requires AllKnown(s, ks)
    ensures Tokens(s, ks) == TokenSum(s, ks)
  {
    if ks != [] { TokensAre(s, ks[..|ks| - 1]); }
  }

  lemma ReachedIs(s: Ledger, limit: Limit, ks: seq<Key>)
    requires AllKnown(s, ks)
    ensures Enough(s, limit, ks) <==> Reached(s, limit, ks)
  {
    TokensAre(s, ks);
  }

  lemma {:induction false} AlikeIs(s: Ledger, ks: seq<Key>, k: Key)
    requires AllKnown(s, ks) && Known(s, k)
    ensures Alike(s, ks, k) == Of(s, ks, IdentityOf(s, k))
  {
    if ks != [] {
      AlikeIs(s, ks[..|ks| - 1], k);
      TogetherIs(s, ks[|ks| - 1], k);
      hide IdentityOf;
      hide Together;
    }
  }

  lemma {:induction false} AlikeKnown(s: Ledger, ks: seq<Key>, k: Key)
    requires AllKnown(s, ks) && Known(s, k)
    ensures AllKnown(s, Alike(s, ks, k)) && |Alike(s, ks, k)| <= |ks|
  {
    if ks != [] { AlikeKnown(s, ks[..|ks| - 1], k); }
  }

  /** Listing entry `i` is the first of its kind. */
  predicate LeadsKind(s: Ledger, ks: seq<Key>, i: nat)
    requires AllKnown(s, ks)
  {
    i < |ks| && forall j :: 0 <= j < i ==> !Together(s, ks[j], ks[i])
  }

  /** There are enough rollouts of entry `i`'s kind. */
  predicate KindReached(s: Ledger, limit: Limit, ks: seq<Key>, i: nat)
    requires AllKnown(s, ks) && i < |ks|
  {
    AlikeKnown(s, ks, ks[i]);
    Reached(s, limit, Alike(s, ks, ks[i]))
  }

  /** Entry `i` leads the first kind that has enough, and the selection is its first `n` members, the fewest that are enough. */
  predicate FewestOfFirst(s: Ledger, limit: Limit, ks: seq<Key>, chosen: seq<Key>, i: nat, n: nat)
    requires AllKnown(s, ks)
  {
    && LeadsKind(s, ks, i) && KindReached(s, limit, ks, i)
    && (forall j :: 0 <= j < i ==> !KindReached(s, limit, ks, j))
    && n <= |Alike(s, ks, ks[i])| && chosen == Alike(s, ks, ks[i])[..n]
    && AllKnown(s, chosen) && Reached(s, limit, chosen)
    && forall m :: 0 <= m < n ==> AllKnown(s, chosen[..m]) && !Reached(s, limit, chosen[..m])
  }

  /** What is selected from the listing. */
  ghost predicate SelectionIs(s: Ledger, limit: Limit, ks: seq<Key>, chosen: seq<Key>)
    requires AllKnown(s, ks)
  {
    if chosen == [] then forall i :: 0 <= i < |ks| ==> !KindReached(s, limit, ks, i)
    else exists i: nat, n: nat :: FewestOfFirst(s, limit, ks, chosen, i, n)
  }

  lemma KindIs(s: Ledger, limit: Limit, ks: seq<Key>, i: nat)
    requires AllKnown(s, ks) && i < |ks|
    ensures KindReached(s, limit, ks, i) <==> IsReady(s, limit, ks, IdentityOf(s, ks[i]))
  {
    AlikeKnown(s, ks, ks[i]);
    AlikeIs(s, ks, ks[i]);
    ReachedIs(s, limit, Alike(s, ks, ks[i]));
    hide Reached;
    hide Enough;
  }

  lemma LeadsIs(s: Ledger, ks: seq<Key>, i: nat)
    requires AllKnown(s, ks) && i < |ks|
    ensures LeadsKind(s, ks, i) <==> StartsAt(s, ks, IdentityOf(s, ks[i]), i)
  {
    forall j | 0 <= j < i ensures Together(s, ks[j], ks[i]) <==> IdentityOf(s, ks[j]) == IdentityOf(s, ks[i]) {
      TogetherIs(s, ks[j], ks[i]);
    }
    hide IdentityOf;
    hide Together;
  }

  lemma {:induction false} KindStarts(s: Ledger, ks: seq<Key>, j: nat) returns (f: nat)
    requires j < |ks|
    ensures f <= j && StartsAt(s, ks, IdentityOf(s, ks[j]), f) && IdentityOf(s, ks[f]) == IdentityOf(s, ks[j])
  {
    hide IdentityOf;
    if exists i :: 0 <= i < j && IdentityOf(s, ks[i]) == IdentityOf(s, ks[j]) {
      var i :| 0 <= i < j && IdentityOf(s, ks[i]) == IdentityOf(s, ks[j]);
      f := KindStarts(s, ks, i);
    } else {
      f := j;
    }
  }

  lemma EarliestFirst(s: Ledger, limit: Limit, ks: seq<Key>, x: Identity) returns (i: nat)
    requires AllKnown(s, ks) && Earliest(s, limit, ks, x)
    ensures i < |ks| && IdentityOf(s, ks[i]) == x && LeadsKind(s, ks, i) && KindReached(s, limit, ks, i)
    ensures forall j :: 0 <= j < i ==> !KindReached(s, limit, ks, j)
  {
    i :| StartsAt(s, ks, x, i) && forall y, j :: IsReady(s, limit, ks, y) && StartsAt(s, ks, y, j) ==> i <= j;
    LeadsIs(s, ks, i);
    KindIs(s, limit, ks, i);
    hide LeadsKind;
    hide KindReached;
    hide IsReady;
    hide IdentityOf;
    forall j | 0 <= j < i ensures !KindReached(s, limit, ks, j) {
      KindIs(s, limit, ks, j);
      var f := KindStarts(s, ks, j);
    }
  }

  lemma ShortestFewest(s: Ledger, limit: Limit, ks: seq<Key>, chosen: seq<Key>)
    requires AllKnown(s, ks) && Shortest(s, limit, ks, chosen)
    ensures |chosen| <= |ks| && chosen == ks[..|chosen|] && AllKnown(s, chosen) && Reached(s, limit, chosen)
    ensures forall m :: 0 <= m < |chosen| ==> AllKnown(s, chosen[..m]) && !Reached(s, limit, chosen[..m])
  {
    assert chosen == ks[..|chosen|];
    ReachedIs(s, limit, chosen);
    forall m | 0 <= m < |chosen| ensures AllKnown(s, chosen[..m]) && !Reached(s, limit, chosen[..m]) {
      assert chosen[..m] == ks[..m];
      ReachedIs(s, limit, ks[..m]);
    }
    hide Enough;
    hide Reached;
  }

  /** The selection: of the first kind with enough rollouts, the fewest that are enough; nothing when no kind has. */
  lemma SelectedExactly(s: Ledger, limit: Limit, ks: seq<Key>, chosen: seq<Key>)
    requires AllKnown(s, ks) && Selected(s, limit, ks, chosen)
    ensures SelectionIs(s, limit, ks, chosen)
  {
    hide KindReached;
    hide IsReady;
    hide IdentityOf;
    hide Shortest;
    hide Earliest;
    if chosen == [] {
      forall i | 0 <= i < |ks| ensures !KindReached(s, limit, ks, i) { KindIs(s, limit, ks, i); }
    } else {
      var x :| Earliest(s, limit, ks, x) && Shortest(s, limit, Of(s, ks, x), chosen);
      var i := EarliestFirst(s, limit, ks, x);
      AlikeIs(s, ks, ks[i]);
      AlikeKnown(s, ks, ks[i]);
      ShortestFewest(s, limit, Alike(s, ks, ks[i]), chosen);
      hide LeadsKind;
      hide Alike;
      assert FewestOfFirst(s, limit, ks, chosen, i, |chosen|);
    }
  }

  /** A selection limited by size has exactly the size. */
  lemma SelectedSize(s: Ledger, limit: Limit, ks: seq<Key>, chosen: seq<Key>)
    requires AllKnown(s, ks) && SelectionIs(s, limit, ks, chosen) && chosen != [] && limit.BySize?
    ensures |chosen| == limit.n
  {
    hide LeadsKind;
    hide KindReached;
    hide Alike;
    var i: nat, n: nat :| FewestOfFirst(s, limit, ks, chosen, i, n);
    if |chosen| > limit.n { FewerIsShort(s, limit, chosen, limit.n); }
  }

  lemma FewerIsShort(s: Ledger, limit: Limit, chosen: seq<Key>, m: nat)
    requires limit.BySize? && m < |chosen|
    requires forall k :: 0 <= k < |chosen| ==> AllKnown(s, chosen[..k]) && !Reached(s, limit, chosen[..k])
    ensures m < limit.n
  {
    assert !Reached(s, limit, chosen[..m]);
  }

  // ---------------------------------------------------------------- staleness and samples

  /** More than the lag behind the active version as the pass read them. */
  predicate TooOld(s: Ledger, w: Window, k: Key)
    requires Known(s, k)
  {
    w.lag.Some? && s.groups[k.group].payload.policy.version + w.lag.value < w.active
  }

  lemma StaleIs(s: Ledger, w: Window, k: Key)
    requires Known(s, k)
    ensures IsStale(s, w, k) <==> TooOld(s, w, k)
  {
  }

  /** The stale rollouts of a listing are exactly those too old, in its order. */
  lemma StalesExactly(s: Ledger, w: Window, ks: seq<Key>)
    requires PlacesOk(s) && Listed(s, ks, Waits(s))
    ensures AllKnown(s, ks) && AllKnown(s, Stales(s, w, ks))
    ensures forall k :: k in Stales(s, w, ks) <==> k in ks && Known(s, k) && TooOld(s, w, k)
    ensures forall i, j :: 0 <= i < j < |Stales(s, w, ks)| ==> Sooner(s, Stales(s, w, ks)[i], Stales(s, w, ks)[j])
  {
    WaitingKnown(s, ks);
    StalesOrdered(s, w, ks);
    var stale := Stales(s, w, ks);
    forall k | k in ks ensures Known(s, k) && (IsStale(s, w, k) <==> TooOld(s, w, k)) { StaleIs(s, w, k); }
    forall i | 0 <= i < |stale| ensures Known(s, stale[i]) { assert stale[i] in stale; }
    hide IsStale;
    hide Precedes;
    hide Sooner;
    hide Stales;
    forall i, j | 0 <= i < j < |stale| ensures Sooner(s, stale[i], stale[j]) { SoonerIs(s, stale[i], stale[j]); }
  }

  /** The samples of the rollouts, one rollout after the other. */
  function SamplesInOrder(s: Ledger, ks: seq<Key>): seq<Sample>
    requires AllKnown(s, ks)
  {
    if ks == [] then []
    else s.groups[ks[0].group].payload.rollouts[ks[0].ordinal].samples + SamplesInOrder(s, ks[1..])
  }

  lemma {:induction false} SamplesAppend(s: Ledger, ks: seq<Key>, k: Key)
    requires AllKnown(s, ks) && Known(s, k)
    ensures AllKnown(s, ks + [k])
    ensures SamplesInOrder(s, ks + [k]) == SamplesInOrder(s, ks) + s.groups[k.group].payload.rollouts[k.ordinal].samples
  {
    if ks == [] {
      assert ks + [k] == [k] && [k][1..] == [];
    } else {
      assert (ks + [k])[1..] == ks[1..] + [k];
      SamplesAppend(s, ks[1..], k);
    }
  }

  lemma {:induction false} SamplesAre(s: Ledger, ks: seq<Key>)
    requires AllKnown(s, ks)
    ensures Samples(s, ks) == SamplesInOrder(s, ks)
  {
    if ks != [] {
      var n := |ks| - 1;
      SamplesAre(s, ks[..n]);
      SamplesAppend(s, ks[..n], ks[n]);
      assert ks == ks[..n] + [ks[n]];
    }
  }

  // ---------------------------------------------------------------- what the ledger accepts

  /** Each member waits, and none is named twice. */
  ghost predicate Free(s: Ledger, members: seq<Key>) {
    && (forall i :: 0 <= i < |members| ==> members[i] in s.places && s.places[members[i]] == Unbatched)
    && (forall i, j :: 0 <= i < j < |members| ==> members[i] != members[j])
  }

  lemma FreeIs(s: Ledger, members: seq<Key>)
    ensures Available(s, members) <==> Free(s, members)
  {
    if Free(s, members) {
      forall k | k in members ensures k in Waits(s) {
        var i :| 0 <= i < |members| && members[i] == k;
      }
    } else if Available(s, members) {
      forall i | 0 <= i < |members| ensures members[i] in s.places && s.places[members[i]] == Unbatched { assert members[i] in members; }
    }
  }

  /** Only the members have moved: they are discarded. */
  ghost predicate OnlyDiscarded(s: Ledger, to: Ledger, members: seq<Key>) {
    && to == s.(places := to.places) && to.places.Keys == s.places.Keys
    && forall k :: k in s.places ==> to.places[k] == if k in members then Discarded else s.places[k]
  }

  /** Rollouts are discarded when they all wait and none is named twice. */
  lemma DiscardDecided(s: Ledger, members: seq<Key>)
    ensures var r := Discard(s, members);
            && (r.result.Success? <==> members != [] && Free(s, members))
            && (r.result.Failure? ==> r.ledger == s && r.result.error == if members == [] then BadValue else Conflict)
            && (r.result.Success? ==> OnlyDiscarded(s, r.ledger, members))
  {
    FreeIs(s, members);
    hide Free;
    if Available(s, members) {
      AvailablePlaces(s, members, None);
      hide Available;
      MovedOut(s, WithPlaces(s.places, members, None), members);
    }
    hide WithPlaces;
  }

  lemma MovedOut(s: Ledger, to: map<Key, Place>, members: seq<Key>)
    requires MovedTo(s.places, to, members, None)
    ensures OnlyDiscarded(s, s.(places := to), members)
  {
    forall k | k in members ensures k in to && to[k] == Discarded {
      var i :| 0 <= i < |members| && members[i] == k;
      assert to[members[i]] == PlaceAt(None, i);
    }
  }

  /** The batch is new, and only its members have moved: each to its position in the batch. */
  ghost predicate OnlyBatched(s: Ledger, to: Ledger, batch: Batch, members: seq<Key>) {
    && to == s.(places := to.places, batches := to.batches) && to.places.Keys == s.places.Keys
    && to.batches.Keys == s.batches.Keys + {batch.step} && to.batches[batch.step] == batch
    && (forall t :: t in s.batches ==> t != batch.step && to.batches[t] == s.batches[t])
    && (forall k :: k in s.places && k !in members ==> to.places[k] == s.places[k])
    && (forall i :: 0 <= i < |members| ==> members[i] in to.places && to.places[members[i]] == Batched(batch.step, i))
  }

  /** A batch is recorded when it is the next one and its members all wait; the same one again changes nothing. */
  lemma RecordBatchDecided(s: Ledger, batch: Batch, members: seq<Key>)
    requires LedgerOk(s)
    ensures var r := RecordBatch(s, batch, members);
            && (r.result.Success? <==>
                  && members != [] && batch.examples != []
                  && if batch.step in s.batches then s.batches[batch.step] == batch
                     else batch.step == |s.batches| + 1 && Free(s, members))
            && (r.result.Failure? || batch.step in s.batches ==> r.ledger == s)
            && (r.result.Success? && batch.step !in s.batches ==> OnlyBatched(s, r.ledger, batch, members))
  {
    hide WithPlaces;
    hide IsNextStep;
    hide PlacesOk;
    hide BatchedOk;
    hide OrdinalsOk;
    hide StepsOk;
    hide NamedOk;
    hide Available;
    hide Free;
    FreeIs(s, members);
    NextStepIs(s, batch.step);
    if batch.step !in s.batches { BatchFresh(s, batch); }
    if Available(s, members) { AvailablePlaces(s, members, Some(batch.step)); }
  }

  /** A group is recorded when it is new and ready; its rollouts, and no others, start to wait. */
  lemma RecordGroupDecided(s: Ledger, processed: Processed, ready: bool)
    requires LedgerOk(s)
    ensures var r := RecordGroup(s, processed, ready); var g := processed.payload.group;
            && (r.result.Success? <==> if g in s.groups then s.groups[g] == processed else ready)
            && (r.result.Failure? || g in s.groups ==> r.ledger == s)
            && (r.result.Success? && g !in s.groups ==>
                  && r.ledger.groups.Keys == s.groups.Keys + {g} && r.ledger.groups[g] == processed
                  && (forall h :: h in s.groups ==> r.ledger.groups[h] == s.groups[h])
                  && r.ledger.batches == s.batches
                  && (forall k :: k in s.places ==> k in r.ledger.places && r.ledger.places[k] == s.places[k])
                  && (forall k :: k in r.ledger.places && k !in s.places ==> k.group == g && r.ledger.places[k] == Unbatched)
                  && (forall i :: 0 <= i < |processed.payload.rollouts| ==> Key(g, i) in r.ledger.places))
  {
    hide PlacesOk;
    hide BatchedOk;
    hide OrdinalsOk;
    hide StepsOk;
    var g, n := processed.payload.group, |processed.payload.rollouts|;
    if g !in s.groups {
      ArtifactFresh(s, processed);
      NewPlacesHold(s.places, g, n);
      NoPlaceYet(s, g);
    }
    hide NamedOk;
    hide NewPlaces;
  }

  lemma NoPlaceYet(s: Ledger, g: Id)
    requires PlacesOk(s) && g !in s.groups
    ensures forall k :: k in s.places ==> k.group != g
  {
  }

  // ---------------------------------------------------------------- one pass of the emission loop

  ghost predicate KnownSooner(s: Ledger, k: Key, l: Key) {
    Known(s, k) && Known(s, l) && Sooner(s, k, l)
  }

  /** All rollouts that wait, in order. */
  ghost predicate WaitingInOrder(s: Ledger, ks: seq<Key>) {
    && (forall k :: k in ks <==> k in s.places && s.places[k] == Unbatched)
    && (forall i, j :: 0 <= i < j < |ks| ==> KnownSooner(s, ks[i], ks[j]))
  }

  /** The waiting rollouts that are too old are discarded, and nothing else happens. */
  ghost predicate DropsOld(s: Ledger, w: Window, members: seq<Key>, to: Ledger) {
    && members != [] && (forall k :: k in members <==> k in s.places && s.places[k] == Unbatched && Known(s, k) && TooOld(s, w, k))
    && OnlyDiscarded(s, to, members)
  }

  /** None is too old: the selection becomes the next batch with its samples in order, or is discarded if it has none. */
  ghost predicate TakesSelection(s: Ledger, w: Window, limit: Limit, ks: seq<Key>, members: seq<Key>, to: Ledger) {
    && AllKnown(s, ks) && AllKnown(s, members) && members != []
    && (forall i :: 0 <= i < |ks| ==> !TooOld(s, w, ks[i]))
    && SelectionIs(s, limit, ks, members)
    && if SamplesInOrder(s, members) == [] then OnlyDiscarded(s, to, members)
       else OnlyBatched(s, to, Batch(SamplesInOrder(s, members), |s.batches| + 1), members)
  }

  /** What a pass does to the ledger it read. */
  lemma PassExactly(p: Pass, limit: Limit)
    requires LedgerOk(p.before) && PassOk(p, limit)
    ensures WaitingInOrder(p.before, p.listing)
    ensures if p.deed.DropStale? then DropsOld(p.before, p.window, p.members, After(p))
            else TakesSelection(p.before, p.window, limit, p.listing, p.members, After(p))
  {
    hide LedgerOk;
    hide Sooner;
    hide Precedes;
    hide After;
    LedgerPlaces(p.before);
    ListedInOrder(p.before, p.listing);
    MembersAvailable(p, limit);
    if p.deed.DropStale? { DropsExactly(p, limit); } else { TakesExactly(p, limit); }
  }

  lemma LedgerPlaces(s: Ledger)
    requires LedgerOk(s)
    ensures PlacesOk(s)
  {
  }

  lemma DropsExactly(p: Pass, limit: Limit)
    requires PlacesOk(p.before) && PassOk(p, limit) && p.deed.DropStale? && Available(p.before, p.members)
    ensures DropsOld(p.before, p.window, p.members, After(p))
  {
    hide Precedes;
    WaitingKnown(p.before, p.listing);
    forall k | k in p.listing ensures Known(p.before, k) && (IsStale(p.before, p.window, k) <==> TooOld(p.before, p.window, k)) {
      StaleIs(p.before, p.window, k);
    }
    DiscardDecided(p.before, p.members);
    FreeIs(p.before, p.members);
    hide IsStale;
    hide TooOld;
    hide Discard;
    hide OnlyDiscarded;
    hide Free;
    hide Available;
  }

  lemma TakesExactly(p: Pass, limit: Limit)
    requires LedgerOk(p.before) && PassOk(p, limit) && !p.deed.DropStale? && Available(p.before, p.members)
    ensures TakesSelection(p.before, p.window, limit, p.listing, p.members, After(p))
  {
    hide Precedes;
    hide OnlyDiscarded;
    hide OnlyBatched;
    hide Selected;
    hide SelectionIs;
    hide IsStale;
    hide TooOld;
    hide Discard;
    hide RecordBatch;
    hide Samples;
    LedgerPlaces(p.before);
    hide LedgerOk;
    WaitingKnown(p.before, p.listing);
    ChosenKnown(p, limit);
    forall i | 0 <= i < |p.listing| ensures !TooOld(p.before, p.window, p.listing[i]) {
      StaleIs(p.before, p.window, p.listing[i]);
      assert p.listing[i] in p.listing;
    }
    SelectedExactly(p.before, limit, p.listing, p.members);
    SamplesAre(p.before, p.members);
    FreeIs(p.before, p.members);
    DiscardDecided(p.before, p.members);
    NextUnused(p.before);
    RecordBatchDecided(p.before, NewBatch(p), p.members);
    hide Free;
    hide Available;
    hide Listed;
  }

  lemma ChosenKnown(p: Pass, limit: Limit)
    requires PlacesOk(p.before) && PassOk(p, limit) && Available(p.before, p.members)
    ensures AllKnown(p.before, p.members)
  {
    forall i | 0 <= i < |p.members| ensures Known(p.before, p.members[i]) { assert p.members[i] in p.members; }
    hide PassOk;
  }

  lemma NextUnused(s: Ledger)
    requires LedgerOk(s)
    ensures |s.batches| + 1 !in s.batches
  {
  }
}
