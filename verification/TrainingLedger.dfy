/** Accounting of processed rollouts into training batches, and the selection of each batch. */
module TrainingLedger {
  import opened Wrappers
  import opened CoordinatorTables

  datatype Key = Key(group: Id, ordinal: nat)

  datatype Sample = Sample(policy: Manifest, body: nat)

  datatype RolloutPayload = RolloutPayload(samples: seq<Sample>, tokens: nat)

  datatype Payload = Payload(group: Id, policy: Manifest, adapter: Option<nat>, rollouts: seq<RolloutPayload>)

  /** A processed_groups row with its verified artifact; `sequence` is the group's. */
  datatype Processed = Processed(input: nat, sequence: nat, payload: Payload)

  datatype Place = Unbatched | Discarded | Batched(step: nat, ordinal: nat)

  /** A training_batches row's artifact. */
  datatype Batch = Batch(examples: seq<Sample>, step: nat)

  datatype Ledger = Ledger(groups: map<Id, Processed>, places: map<Key, Place>, batches: map<nat, Batch>)

  datatype Hash = AdapterHash(digest: nat) | PolicyHash(manifest: Manifest)

  datatype Identity = Identity(version: nat, hash: Hash)

  datatype Limit = BySize(n: nat) | ByTokens(n: nat)

  // ---------------------------------------------------------------- invariants

  /** Every rollout of a processed group has a place, and only those do. */
  ghost predicate PlacesOk(s: Ledger) {
    forall k :: k in s.places <==> k.group in s.groups && k.ordinal < |s.groups[k.group].payload.rollouts|
  }

  /** A place in a batch is taken once, and the batch exists. */
  ghost predicate BatchedOk(s: Ledger) {
    && (forall k :: k in s.places && s.places[k].Batched? ==> s.places[k].step in s.batches)
    && (forall k, l :: k in s.places && l in s.places && s.places[k].Batched? && s.places[l] == s.places[k] ==> k == l)
  }

  ghost predicate Holds(s: Ledger, step: nat, ordinal: nat) {
    exists k :: k in s.places && s.places[k] == Batched(step, ordinal)
  }

  /** The ordinals of a batch start at 0 and have no gap. */
  ghost predicate OrdinalsOk(s: Ledger) {
    forall step: nat, p: nat, q: nat :: p <= q && Holds(s, step, q) ==> Holds(s, step, p)
  }

  /** Steps are 1 to n without gaps. */
  ghost predicate StepsOk(s: Ledger) {
    forall step: nat :: step in s.batches <==> 1 <= step <= |s.batches|
  }

  /** Payloads of one version are of one policy, and samples carry their payload's policy. */
  ghost predicate PoliciesOk(s: Ledger) {
    && (forall g, h ::
          && g in s.groups && h in s.groups
          && s.groups[g].payload.policy.version == s.groups[h].payload.policy.version
          ==> s.groups[g].payload.policy == s.groups[h].payload.policy && s.groups[g].payload.adapter == s.groups[h].payload.adapter)
    && (forall g :: g in s.groups ==> Stamped(s.groups[g].payload))
  }

  ghost predicate Stamped(p: Payload) {
    forall i, j :: 0 <= i < |p.rollouts| && 0 <= j < |p.rollouts[i].samples| ==> p.rollouts[i].samples[j].policy == p.policy
  }

  /** Artifacts name their row, so no two rows have the same artifact digest. */
  ghost predicate NamedOk(s: Ledger) {
    && (forall g :: g in s.groups ==> s.groups[g].payload.group == g)
    && (forall step :: step in s.batches ==> s.batches[step].step == step)
  }

  ghost predicate LedgerOk(s: Ledger) {
    PlacesOk(s) && BatchedOk(s) && OrdinalsOk(s) && StepsOk(s) && NamedOk(s)
  }

  const EMPTY := Ledger(map[], map[], map[])

  lemma EmptyOk()
    ensures LedgerOk(EMPTY)
  {
  }

  /** UNIQUE artifact_digest, in both tables. */
  lemma ArtifactsUnique(s: Ledger)
    requires LedgerOk(s)
    ensures forall g, h :: g in s.groups && h in s.groups && s.groups[g].payload == s.groups[h].payload ==> g == h
    ensures forall t, u :: t in s.batches && u in s.batches && s.batches[t] == s.batches[u] ==> t == u
  {
    hide PlacesOk;
    hide BatchedOk;
    hide OrdinalsOk;
    hide StepsOk;
    forall t, u | t in s.batches && u in s.batches && s.batches[t] == s.batches[u] ensures t == u {
      assert s.batches[t].step == t && s.batches[u].step == u;
    }
  }

  // ---------------------------------------------------------------- the transactions

  datatype Written<+T> = Written(ledger: Ledger, result: Result<T, Error>)

  function NewPlaces(places: map<Key, Place>, g: Id, n: nat): map<Key, Place> {
    if n == 0 then places else NewPlaces(places, g, n - 1)[Key(g, n - 1) := Unbatched]
  }

  /** `record_processed_group` for the group the payload names; `ready` is its state in the coordinator. */
  function RecordGroup(s: Ledger, processed: Processed, ready: bool): Written<()> {
    var g := processed.payload.group;
    if g in s.groups then
      if s.groups[g] != processed then Written(s, Failure(Conflict)) else Written(s, Success(()))
    else if !ready then Written(s, Failure(InvalidState))
    else if exists h :: h in s.groups && s.groups[h].payload == processed.payload then Written(s, Failure(Integrity))
    else Written(s.(groups := s.groups[g := processed], places := NewPlaces(s.places, g, |processed.payload.rollouts|)), Success(()))
  }

  function Waits(s: Ledger): set<Key> {
    set k | k in s.places && s.places[k].Unbatched?
  }

  predicate Distinct(members: seq<Key>) {
    forall i, j :: 0 <= i < j < |members| ==> members[i] != members[j]
  }

  /** Every member waits, and none is named twice. */
  predicate Available(s: Ledger, members: seq<Key>) {
    Distinct(members) && forall k :: k in members ==> k in Waits(s)
  }

  /** Where the i-th member goes: into batch `step`, or out. */
  function PlaceAt(step: Option<nat>, i: nat): Place {
    if step.Some? then Batched(step.value, i) else Discarded
  }

  function WithPlaces(places: map<Key, Place>, members: seq<Key>, step: Option<nat>): map<Key, Place> {
    if members == [] then places
    else WithPlaces(places, members[..|members| - 1], step)[members[|members| - 1] := PlaceAt(step, |members| - 1)]
  }

  /** `discard_processed_rollouts`. */
  function Discard(s: Ledger, members: seq<Key>): Written<()> {
    if members == [] then Written(s, Failure(BadValue))
    else if !Available(s, members) then Written(s, Failure(Conflict))
    else Written(s.(places := WithPlaces(s.places, members, None)), Success(()))
  }

  /** One more than the largest step, or 1. */
  predicate IsNextStep(s: Ledger, step: nat) {
    && step > 0 && (forall t :: t in s.batches ==> t < step)
    && (step == 1 || step - 1 in s.batches)
  }

  lemma NextStepIs(s: Ledger, step: nat)
    requires StepsOk(s)
    ensures IsNextStep(s, step) <==> step == |s.batches| + 1
  {
    if |s.batches| > 0 { assert |s.batches| in s.batches; }
  }

  /** `record_training_batch` for the step the batch names. */
  function RecordBatch(s: Ledger, batch: Batch, members: seq<Key>): Written<()> {
    var step := batch.step;
    if members == [] || batch.examples == [] then Written(s, Failure(BadValue))
    else if step in s.batches then
      if s.batches[step] != batch then Written(s, Failure(Conflict)) else Written(s, Success(()))
    else if !IsNextStep(s, step) then Written(s, Failure(InvalidState))
    else if !Available(s, members) then Written(s, Failure(Conflict))
    else if exists t :: t in s.batches && s.batches[t] == batch then Written(s, Failure(Integrity))
    else Written(s.(places := WithPlaces(s.places, members, Some(step)), batches := s.batches[step := batch]), Success(()))
  }

  // ---------------------------------------------------------------- what the transactions keep

  ghost predicate MovedTo(from: map<Key, Place>, to: map<Key, Place>, members: seq<Key>, step: Option<nat>) {
    && to.Keys == from.Keys
    && (forall k :: k in from && k !in members ==> to[k] == from[k])
    && (forall i :: 0 <= i < |members| ==> members[i] in to && to[members[i]] == PlaceAt(step, i))
  }

  lemma {:induction false} MemberPlaces(places: map<Key, Place>, members: seq<Key>, step: Option<nat>)
    requires Distinct(members) && forall i :: 0 <= i < |members| ==> members[i] in places
    ensures MovedTo(places, WithPlaces(places, members, step), members, step)
  {
    if members != [] {
      var rest, last := members[..|members| - 1], members[|members| - 1];
      MemberPlaces(places, rest, step);
      assert members == rest + [last];
      assert forall k :: k in members <==> k in rest || k == last;
    }
  }

  lemma AvailablePlaces(s: Ledger, members: seq<Key>, step: Option<nat>)
    requires Available(s, members)
    ensures MovedTo(s.places, WithPlaces(s.places, members, step), members, step)
  {
    forall i | 0 <= i < |members| ensures members[i] in s.places {
      assert members[i] in members;
    }
    MemberPlaces(s.places, members, step);
  }

  lemma {:induction false} NewPlacesHold(places: map<Key, Place>, g: Id, n: nat)
    ensures var to := NewPlaces(places, g, n);
            && (forall k :: k in to <==> k in places || (k.group == g && k.ordinal < n))
            && (forall k :: k in to ==> to[k] == if k.group == g && k.ordinal < n then Unbatched else places[k])
  {
    if n > 0 { NewPlacesHold(places, g, n - 1); }
  }

  function KeysOf(g: Id, n: nat): set<Key> {
    set i | 0 <= i < n :: Key(g, i)
  }

  lemma PlacesGrow(s: Ledger, g: Id, processed: Processed, to: Ledger)
    requires PlacesOk(s) && g !in s.groups && to.groups == s.groups[g := processed]
    requires to.places == NewPlaces(s.places, g, |processed.payload.rollouts|)
    ensures PlacesOk(to)
    ensures forall k :: k in s.places ==> k in to.places && to.places[k] == s.places[k]
    ensures forall k :: k in to.places && k !in s.places ==> to.places[k].Unbatched?
    ensures to.places.Keys == s.places.Keys + KeysOf(g, |processed.payload.rollouts|)
  {
    NewPlacesHold(s.places, g, |processed.payload.rollouts|);
    hide NewPlaces;
    forall k ensures k in KeysOf(g, |processed.payload.rollouts|) <==> k.group == g && k.ordinal < |processed.payload.rollouts| {
      if k.group == g && k.ordinal < |processed.payload.rollouts| { assert k == Key(g, k.ordinal); }
    }
  }

  lemma WaitsGrow(s: Ledger, to: Ledger, more: set<Key>)
    requires to.places.Keys == s.places.Keys + more && more !! s.places.Keys
    requires forall k :: k in s.places ==> k in to.places && to.places[k] == s.places[k]
    requires forall k :: k in to.places && k !in s.places ==> to.places[k].Unbatched?
    ensures Waits(to) == Waits(s) + more
  {
  }

  lemma OrdinalsGrow(s: Ledger, to: Ledger)
    requires BatchedOk(s) && OrdinalsOk(s) && to.batches == s.batches
    requires forall k :: k in s.places ==> k in to.places && to.places[k] == s.places[k]
    requires forall k :: k in to.places && k !in s.places ==> to.places[k].Unbatched?
    ensures BatchedOk(to) && OrdinalsOk(to)
  {
    forall step: nat, p: nat, q: nat | p <= q && Holds(to, step, q) ensures Holds(to, step, p) {
      assert Holds(s, step, q);
      assert Holds(s, step, p);
    }
  }

  lemma NamesGrow(s: Ledger, processed: Processed, to: Ledger)
    requires NamedOk(s) && to.groups == s.groups[processed.payload.group := processed] && to.batches == s.batches
    ensures NamedOk(to)
  {
  }

  /** The digest of a group's artifact is new, since it names the group. */
  lemma ArtifactFresh(s: Ledger, processed: Processed)
    requires NamedOk(s) && processed.payload.group !in s.groups
    ensures !exists h :: h in s.groups && s.groups[h].payload == processed.payload
  {
  }

  /** A group is recorded once; its rollouts, and no others, start to wait; nothing moves. */
  lemma RecordGroupKeeps(s: Ledger, processed: Processed, ready: bool)
    requires LedgerOk(s)
    ensures var to, g, n := RecordGroup(s, processed, ready).ledger, processed.payload.group, |processed.payload.rollouts|;
            && LedgerOk(to)
            && (forall k :: k in s.places ==> k in to.places && to.places[k] == s.places[k])
            && (forall k :: k in to.places && k !in s.places ==> to.places[k].Unbatched?)
            && (g !in s.groups && ready ==> to.groups == s.groups[g := processed] && Waits(to) == Waits(s) + KeysOf(g, n))
            && (g !in s.groups && ready <==> to != s)
    ensures var result := RecordGroup(s, processed, ready).result;
            result.Success? <==> (if processed.payload.group in s.groups then s.groups[processed.payload.group] == processed else ready)
  {
    hide NewPlaces;
    hide PlacesOk;
    hide BatchedOk;
    hide OrdinalsOk;
    hide NamedOk;
    hide Waits;
    hide KeysOf;
    var to, g := RecordGroup(s, processed, ready).ledger, processed.payload.group;
    if g !in s.groups && ready {
      ArtifactFresh(s, processed);
      assert g in to.groups;
      PlacesGrow(s, g, processed, to);
      NewKeys(s, g, |processed.payload.rollouts|);
      WaitsGrow(s, to, KeysOf(g, |processed.payload.rollouts|));
      NamesGrow(s, processed, to);
      OrdinalsGrow(s, to);
    }
  }

  lemma NewKeys(s: Ledger, g: Id, n: nat)
    requires PlacesOk(s) && g !in s.groups
    ensures KeysOf(g, n) !! s.places.Keys
  {
  }

  lemma MovedWaits(s: Ledger, to: Ledger, members: seq<Key>, step: Option<nat>)
    requires MovedTo(s.places, to.places, members, step)
    ensures Waits(to) == Waits(s) - (set k | k in members)
  {
    forall k | k in members ensures k in to.places && !to.places[k].Unbatched? {
      var i :| 0 <= i < |members| && members[i] == k;
      assert to.places[members[i]] == PlaceAt(step, i);
    }
  }

  lemma SameGroups(s: Ledger, to: Ledger)
    requires PlacesOk(s) && to.groups == s.groups && to.places.Keys == s.places.Keys
    ensures PlacesOk(to)
  {
  }

  /** Rollouts already in a batch stay where they are. */
  lemma BatchedStay(s: Ledger, to: Ledger, members: seq<Key>, step: Option<nat>, k: Key)
    requires Available(s, members) && MovedTo(s.places, to.places, members, step) && k in s.places && !s.places[k].Unbatched?
    ensures k !in members && to.places[k] == s.places[k]
  {
  }

  lemma DiscardedBatches(s: Ledger, to: Ledger, members: seq<Key>)
    requires BatchedOk(s) && OrdinalsOk(s) && Available(s, members) && to.batches == s.batches
    requires MovedTo(s.places, to.places, members, None)
    ensures BatchedOk(to) && OrdinalsOk(to)
  {
    forall k | k in s.places ensures s.places[k].Batched? <==> to.places[k].Batched?
                             ensures s.places[k].Batched? ==> to.places[k] == s.places[k] {
      if s.places[k].Batched? { BatchedStay(s, to, members, None, k); }
      if k in members {
        var i :| 0 <= i < |members| && members[i] == k;
        assert to.places[members[i]] == PlaceAt(None, i);
      }
    }
    hide MovedTo;
    forall step: nat, p: nat, q: nat | p <= q && Holds(to, step, q) ensures Holds(to, step, p) {
      assert Holds(s, step, q);
      assert Holds(s, step, p);
    }
  }

  lemma DiscardKeeps(s: Ledger, members: seq<Key>)
    requires LedgerOk(s)
    ensures LedgerOk(Discard(s, members).ledger)
    ensures Discard(s, members).result.Success? ==> Waits(Discard(s, members).ledger) == Waits(s) - (set k | k in members)
  {
    hide WithPlaces;
    hide PlacesOk;
    hide BatchedOk;
    hide OrdinalsOk;
    hide Available;
    var to := Discard(s, members).ledger;
    if Discard(s, members).result.Success? {
      AvailablePlaces(s, members, None);
      MovedWaits(s, to, members, None);
      DiscardedBatches(s, to, members);
      assert to.places.Keys == s.places.Keys;
      SameGroups(s, to);
    }
  }

  lemma NewBatchPlace(s: Ledger, to: Ledger, step: nat, members: seq<Key>, k: Key)
    requires BatchedOk(s) && StepsOk(s) && step == |s.batches| + 1 && Available(s, members)
    requires MovedTo(s.places, to.places, members, Some(step)) && k in s.places && to.places[k].Batched?
    ensures if to.places[k].step == step
            then to.places[k].ordinal < |members| && members[to.places[k].ordinal] == k
            else s.places[k] == to.places[k] && k !in members
  {
    if k in members {
      var i :| 0 <= i < |members| && members[i] == k;
      assert to.places[members[i]] == PlaceAt(Some(step), i);
    } else {
      assert to.places[k] == s.places[k];
      assert s.places[k].step in s.batches;
    }
  }

  lemma NewBatchUnique(s: Ledger, to: Ledger, step: nat, members: seq<Key>)
    requires BatchedOk(s) && StepsOk(s) && step == |s.batches| + 1 && Available(s, members)
    requires to.batches.Keys == s.batches.Keys + {step} && MovedTo(s.places, to.places, members, Some(step))
    ensures BatchedOk(to)
  {
    forall k | k in to.places && to.places[k].Batched? ensures to.places[k].step in to.batches {
      NewBatchPlace(s, to, step, members, k);
    }
    forall k, l | k in to.places && l in to.places && to.places[k].Batched? && to.places[l] == to.places[k] ensures k == l {
      NewBatchPlace(s, to, step, members, k);
      NewBatchPlace(s, to, step, members, l);
    }
  }

  lemma NewBatchOrdinals(s: Ledger, to: Ledger, step: nat, members: seq<Key>)
    requires BatchedOk(s) && OrdinalsOk(s) && StepsOk(s) && step == |s.batches| + 1 && Available(s, members)
    requires MovedTo(s.places, to.places, members, Some(step))
    ensures OrdinalsOk(to)
  {
    forall t: nat, p: nat, q: nat | p <= q && Holds(to, t, q) ensures Holds(to, t, p) {
      var k :| k in to.places && to.places[k] == Batched(t, q);
      NewBatchPlace(s, to, step, members, k);
      if t == step {
        assert to.places[members[p]] == PlaceAt(Some(step), p);
      } else {
        assert Holds(s, t, q);
        assert Holds(s, t, p);
        var l :| l in s.places && s.places[l] == Batched(t, p);
        BatchedStay(s, to, members, Some(step), l);
      }
    }
  }

  lemma BatchCount(batches: map<nat, Batch>, step: nat, batch: Batch)
    requires step !in batches
    ensures |batches[step := batch]| == |batches| + 1
  {
    assert batches[step := batch].Keys == batches.Keys + {step};
    assert |batches[step := batch]| == |batches[step := batch].Keys| == |batches.Keys| + 1;
  }

  lemma StepsGrow(s: Ledger, to: Ledger, step: nat, batch: Batch)
    requires StepsOk(s) && step == |s.batches| + 1 && to.batches == s.batches[step := batch]
    ensures StepsOk(to)
  {
    BatchCount(s.batches, step, batch);
    forall t: nat ensures t in to.batches <==> 1 <= t <= |to.batches| {
      assert t in to.batches <==> t in s.batches || t == step;
    }
  }

  lemma BatchNamed(s: Ledger, to: Ledger, batch: Batch)
    requires NamedOk(s) && to.groups == s.groups && to.batches == s.batches[batch.step := batch]
    ensures NamedOk(to)
  {
  }

  lemma BatchFresh(s: Ledger, batch: Batch)
    requires NamedOk(s) && batch.step !in s.batches
    ensures !exists t :: t in s.batches && s.batches[t] == batch
  {
  }

  /** A batch takes the next step and exactly its members, or is refused; its digest is never taken. */
  lemma RecordBatchKeeps(s: Ledger, batch: Batch, members: seq<Key>)
    requires LedgerOk(s)
    ensures var to := RecordBatch(s, batch, members).ledger;
            && LedgerOk(to)
            && (to != s ==> batch.step == |s.batches| + 1 && to.batches == s.batches[batch.step := batch]
                            && Waits(to) == Waits(s) - (set k | k in members))
    ensures RecordBatch(s, batch, members).result != Failure(Integrity)
  {
    hide WithPlaces;
    hide PlacesOk;
    hide BatchedOk;
    hide OrdinalsOk;
    hide StepsOk;
    hide NamedOk;
    hide Available;
    var to, step := RecordBatch(s, batch, members).ledger, batch.step;
    if step !in s.batches { BatchFresh(s, batch); }
    if to != s {
      NextStepIs(s, step);
      AvailablePlaces(s, members, Some(step));
      MovedWaits(s, to, members, Some(step));
      NewBatchUnique(s, to, step, members);
      NewBatchOrdinals(s, to, step, members);
      StepsGrow(s, to, step, batch);
      BatchNamed(s, to, batch);
      assert to.places.Keys == s.places.Keys;
      SameGroups(s, to);
    }
  }
}
