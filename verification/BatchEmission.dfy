/** `_emit_ready_batches`: drop stale rollouts, then emit batches until no identity has enough. */
module BatchEmission {
  import opened Wrappers
  import opened CoordinatorTables
  import opened TrainingLedger
  import opened BatchSelection

  /** The active version and the lag limit, read anew in every pass. */
  datatype Window = Window(active: nat, lag: Option<nat>)

  predicate Beyond(w: Window, version: nat) {
    w.lag.Some? && w.active - version > w.lag.value
  }

  predicate IsStale(s: Ledger, w: Window, k: Key) {
    Beyond(w, IdentityOf(s, k).version)
  }

  function Stales(s: Ledger, w: Window, ks: seq<Key>): seq<Key> {
    if ks == [] then []
    else Stales(s, w, ks[..|ks| - 1]) + (if IsStale(s, w, ks[|ks| - 1]) then [ks[|ks| - 1]] else [])
  }

  function Samples(s: Ledger, ks: seq<Key>): seq<Sample> {
    if ks == [] then [] else Samples(s, ks[..|ks| - 1]) + PayloadOf(s, ks[|ks| - 1]).samples
  }

  predicate Ordered(s: Ledger, ks: seq<Key>) {
    forall i, j :: 0 <= i < j < |ks| ==> Precedes(s, ks[i], ks[j])
  }

  lemma BeforeLast(s: Ledger, ks: seq<Key>, sub: seq<Key>)
    requires ks != [] && Ordered(s, ks) && Ordered(s, sub) && forall k :: k in sub ==> k in ks[..|ks| - 1]
    ensures Ordered(s, sub + [ks[|ks| - 1]])
  {
    hide Precedes;
    var last := ks[|ks| - 1];
    forall i | 0 <= i < |sub| ensures Precedes(s, sub[i], last) {
      assert sub[i] in sub;
      var j :| 0 <= j < |ks| - 1 && ks[j] == sub[i];
    }
  }

  lemma {:induction false} StalesOrdered(s: Ledger, w: Window, ks: seq<Key>)
    requires Ordered(s, ks)
    ensures Ordered(s, Stales(s, w, ks))
    ensures forall k :: k in Stales(s, w, ks) <==> k in ks && IsStale(s, w, k)
  {
    hide IsStale;
    hide Precedes;
    if ks != [] {
      StalesOrdered(s, w, ks[..|ks| - 1]);
      BeforeLast(s, ks, Stales(s, w, ks[..|ks| - 1]));
      assert ks == ks[..|ks| - 1] + [ks[|ks| - 1]];
    }
  }

  lemma {:induction false} OfOrdered(s: Ledger, ks: seq<Key>, x: Identity)
    requires Ordered(s, ks)
    ensures Ordered(s, Of(s, ks, x))
  {
    hide IdentityOf;
    hide Precedes;
    if ks != [] {
      OfOrdered(s, ks[..|ks| - 1], x);
      OfMembers(s, ks[..|ks| - 1], x);
      BeforeLast(s, ks, Of(s, ks[..|ks| - 1], x));
    }
  }

  /** Ordered waiting rollouts can be moved together. */
  lemma OrderedAvailable(s: Ledger, ks: seq<Key>)
    requires Ordered(s, ks) && forall k :: k in ks ==> k in Waits(s)
    ensures Available(s, ks)
  {
    forall i, j | 0 <= i < j < |ks| ensures ks[i] != ks[j] {
      assert Precedes(s, ks[i], ks[j]);
    }
  }

  ghost predicate OfOne(s: Ledger, ks: seq<Key>, x: Identity) {
    forall k :: k in ks ==> IdentityOf(s, k) == x
  }

  datatype Deed = DropStale | DropEmpty | EmitBatch

  /** One pass of the loop: the ledger and window it saw, and what it did with which of the listed rollouts. */
  datatype Pass = Pass(before: Ledger, window: Window, listing: seq<Key>, members: seq<Key>, deed: Deed)

  /** The members are the stale rollouts of the listing, in its order. */
  ghost predicate AllStale(p: Pass) {
    Ordered(p.before, p.members) && forall k :: k in p.members <==> k in p.listing && IsStale(p.before, p.window, k)
  }

  /** No listed rollout is stale, and the members are the selection. */
  ghost predicate Chosen(p: Pass, limit: Limit) {
    && (forall k :: k in p.listing ==> !IsStale(p.before, p.window, k))
    && Selected(p.before, limit, p.listing, p.members)
  }

  /** Stale rollouts go first, and alone; a selection is emitted if it has samples and dropped if it has none. */
  ghost predicate Acts(p: Pass, limit: Limit) {
    && p.members != []
    && match p.deed
       case DropStale => AllStale(p)
       case DropEmpty => Chosen(p, limit) && Samples(p.before, p.members) == []
       case EmitBatch => Chosen(p, limit) && Samples(p.before, p.members) != []
  }

  /** It acts on the listing of all waiting rollouts. */
  ghost predicate PassOk(p: Pass, limit: Limit) {
    Listed(p.before, p.listing, Waits(p.before)) && Acts(p, limit)
  }

  function StepOf(p: Pass): nat { |p.before.batches| + 1 }

  function NewBatch(p: Pass): Batch { Batch(Samples(p.before, p.members), StepOf(p)) }

  /** The ledger after the pass. */
  function After(p: Pass): Ledger {
    if p.deed.EmitBatch? then RecordBatch(p.before, NewBatch(p), p.members).ledger else Discard(p.before, p.members).ledger
  }

  /** What the pass did is in `s`: its batch with its members in order, or its members discarded. */
  ghost predicate Stands(p: Pass, s: Ledger) {
    if p.deed.EmitBatch? then
      && StepOf(p) in s.batches && s.batches[StepOf(p)] == NewBatch(p)
      && forall i :: 0 <= i < |p.members| ==> p.members[i] in s.places && s.places[p.members[i]] == Batched(StepOf(p), i)
    else forall k :: k in p.members ==> k in s.places && s.places[k].Discarded?
  }

  /** Pass `i` was taken on the `i`-th reading of the window, and what it did is in `s`. */
  ghost predicate LogOk(windows: nat -> Window, limit: Limit, log: seq<Pass>, s: Ledger) {
    forall i :: 0 <= i < |log| ==> log[i].window == windows(i) && PassOk(log[i], limit) && Stands(log[i], s)
  }

  /** Each pass starts from the ledger its predecessor left. */
  ghost predicate Chained(s: Ledger, log: seq<Pass>, to: Ledger) {
    if log == [] then to == s
    else log[0].before == s && After(log[|log| - 1]) == to && forall i :: 0 < i < |log| ==> log[i].before == After(log[i - 1])
  }

  /** Every rollout that stopped waiting was a member of some pass. */
  ghost predicate Explained(s: Ledger, log: seq<Pass>, to: Ledger) {
    forall k :: k in s.places && s.places[k].Unbatched? && k in to.places && !to.places[k].Unbatched? ==> InPass(log, k)
  }

  ghost predicate InPass(log: seq<Pass>, k: Key) {
    exists i :: 0 <= i < |log| && k in log[i].members
  }

  function Emits(log: seq<Pass>): nat {
    if log == [] then 0 else Emits(log[..|log| - 1]) + if log[|log| - 1].deed.EmitBatch? then 1 else 0
  }

  /** Nothing already placed moves, and no batch changes. */
  ghost predicate Extends(s: Ledger, to: Ledger) {
    && to.groups == s.groups && to.places.Keys == s.places.Keys
    && (forall k :: k in s.places && !s.places[k].Unbatched? ==> to.places[k] == s.places[k])
    && (forall step :: step in s.batches ==> step in to.batches && to.batches[step] == s.batches[step])
  }

  lemma DiscardExtends(s: Ledger, members: seq<Key>)
    requires members != [] && Available(s, members)
    ensures Extends(s, Discard(s, members).ledger) && Discard(s, members).result.Success?
  {
    AvailablePlaces(s, members, None);
    hide WithPlaces;
  }

  lemma RecordExtends(s: Ledger, step: nat, batch: Batch, members: seq<Key>)
    requires members != [] && batch.examples != [] && Available(s, members) && StepsOk(s) && NamedOk(s)
    requires step == |s.batches| + 1 && batch.step == step
    ensures var r := RecordBatch(s, batch, members);
            && Extends(s, r.ledger) && r.result.Success? && r.ledger != s
            && r.ledger.batches == s.batches[step := batch] && |r.ledger.batches| == |s.batches| + 1
            && forall i :: 0 <= i < |members| ==> members[i] in r.ledger.places && r.ledger.places[members[i]] == Batched(step, i)
  {
    NextStepIs(s, step);
    AvailablePlaces(s, members, Some(step));
    BatchCount(s.batches, step, batch);
    hide WithPlaces;
  }

  lemma StandsStill(p: Pass, s: Ledger, to: Ledger)
    requires Stands(p, s) && Extends(s, to)
    ensures Stands(p, to)
  {
    hide NewBatch;
  }

  /** The chosen members wait, are of one identity, and none is stale. */
  lemma ChosenAvailable(s: Ledger, limit: Limit, ks: seq<Key>, chosen: seq<Key>)
    requires Listed(s, ks, Waits(s)) && chosen != [] && Selected(s, limit, ks, chosen)
    ensures Available(s, chosen) && forall k :: k in chosen ==> k in ks
    ensures exists x :: OfOne(s, chosen, x)
  {
    hide IdentityOf;
    hide Precedes;
    var x :| Earliest(s, limit, ks, x) && Shortest(s, limit, Of(s, ks, x), chosen);
    OfOrdered(s, ks, x);
    OfMembers(s, ks, x);
    hide Of;
    assert forall i :: 0 <= i < |chosen| ==> chosen[i] == Of(s, ks, x)[i];
    forall k | k in chosen ensures k in Of(s, ks, x) {
    }
    assert OfOne(s, chosen, x);
    OrderedAvailable(s, chosen);
  }

  lemma WaitsShrink(s: Ledger, to: Ledger, members: seq<Key>)
    requires members != [] && Available(s, members) && Waits(to) == Waits(s) - (set k | k in members)
    ensures |Waits(to)| < |Waits(s)|
  {
    assert members[0] in members;
    assert members[0] in Waits(s) && members[0] !in Waits(to);
    Smaller(Waits(to), Waits(s));
  }

  lemma {:induction false} Smaller<T>(a: set<T>, b: set<T>)
    requires a < b
    ensures |a| < |b|
    decreases |a|
  {
    if a != {} {
      var x :| x in a;
      var y :| y in b && y !in a;
      assert y in b - {x} && y !in a - {x};
      Smaller(a - {x}, b - {x});
    }
  }

  /** All samples of a selection of one identity carry the same policy, so the source's assertions never fire. */
  lemma {:induction false} OnePolicy(s: Ledger, ks: seq<Key>, x: Identity)
    requires PoliciesOk(s) && PlacesOk(s) && (forall k :: k in ks ==> k in s.places && IdentityOf(s, k) == x)
    ensures forall i :: 0 <= i < |Samples(s, ks)| ==> Samples(s, ks)[i].policy.version == x.version
    ensures forall i, j :: 0 <= i < |Samples(s, ks)| && 0 <= j < |Samples(s, ks)| ==> Samples(s, ks)[i].policy == Samples(s, ks)[j].policy
  {
    if ks != [] {
      var rest, last := ks[..|ks| - 1], ks[|ks| - 1];
      forall k | k in rest ensures k in ks {
      }
      forall i | 0 <= i < |Samples(s, ks)| ensures SampleOf(s, ks, i) {
        SamplePolicy(s, ks, i);
      }
      forall i | 0 <= i < |Samples(s, ks)| ensures Samples(s, ks)[i].policy.version == x.version {
        SamplesAgree(s, ks, x, i, i);
      }
      forall i, j | 0 <= i < |Samples(s, ks)| && 0 <= j < |Samples(s, ks)| ensures Samples(s, ks)[i].policy == Samples(s, ks)[j].policy {
        SamplesAgree(s, ks, x, i, j);
      }
    }
  }

  /** Sample `i` comes from one of the rollouts. */
  ghost predicate SampleOf(s: Ledger, ks: seq<Key>, i: nat) {
    i < |Samples(s, ks)| && exists k :: k in ks && k.group in s.groups && Samples(s, ks)[i].policy == s.groups[k.group].payload.policy
  }

  lemma {:induction false} SamplePolicy(s: Ledger, ks: seq<Key>, i: nat)
    requires PoliciesOk(s) && PlacesOk(s) && (forall k :: k in ks ==> k in s.places) && i < |Samples(s, ks)|
    ensures SampleOf(s, ks, i)
  {
    var rest, last := ks[..|ks| - 1], ks[|ks| - 1];
    forall k | k in rest ensures k in ks {
    }
    if i < |Samples(s, rest)| {
      SamplePolicy(s, rest, i);
      var k :| k in rest && k.group in s.groups && Samples(s, rest)[i].policy == s.groups[k.group].payload.policy;
      assert k in ks;
    } else {
      assert last in ks;
      assert Stamped(s.groups[last.group].payload);
    }
  }

  lemma SamplesAgree(s: Ledger, ks: seq<Key>, x: Identity, i: nat, j: nat)
    requires PoliciesOk(s) && SampleOf(s, ks, i) && SampleOf(s, ks, j) && (forall k :: k in ks ==> IdentityOf(s, k) == x)
    ensures Samples(s, ks)[i].policy == Samples(s, ks)[j].policy
    ensures Samples(s, ks)[i].policy.version == x.version
  {
    var k :| k in ks && k.group in s.groups && Samples(s, ks)[i].policy == s.groups[k.group].payload.policy;
    var l :| l in ks && l.group in s.groups && Samples(s, ks)[j].policy == s.groups[l.group].payload.policy;
    assert IdentityOf(s, k) == IdentityOf(s, l);
    hide Samples;
    hide Stamped;
  }

  /** Nothing left to do: no waiting rollout is stale and no identity has enough. */
  ghost predicate Exhausted(s: Ledger, w: Window, limit: Limit) {
    exists ks :: Listed(s, ks, Waits(s)) && (forall k :: k in ks ==> !IsStale(s, w, k)) && NoneReady(s, limit, ks)
  }

  class ResultProcessor {
    var ledger: Ledger
    const limit: Limit

    constructor (start: Ledger, batchLimit: Limit)
      ensures ledger == start && limit == batchLimit
    {
      ledger := start;
      limit := batchLimit;
    }

    /** Each pass removes waiting rollouts, so the loop ends; `windows` gives the reading of each pass. */
    method EmitReadyBatches(windows: nat -> Window) returns (emitted: nat, ghost log: seq<Pass>)
      requires LedgerOk(ledger) && limit.n >= 1
      modifies this`ledger
      ensures LedgerOk(ledger) && Extends(old(ledger), ledger)
      ensures Chained(old(ledger), log, ledger) && Explained(old(ledger), log, ledger)
      ensures LogOk(windows, limit, log, ledger)
      ensures emitted == Emits(log) && |ledger.batches| == |old(ledger).batches| + emitted
      ensures Exhausted(ledger, windows(|log|), limit)
    {
      hide LedgerOk;
      hide Extends;
      hide Chained;
      hide Explained;
      hide LogOk;
      hide PassOk;
      hide OnlyMembers;
      hide Stands;
      hide After;
      hide Listed;
      hide Selected;
      hide NoneReady;
      hide IsStale;
      hide Waits;
      hide Samples;
      var passes := 0;
      emitted, log := 0, [];
      Started(windows, limit, ledger);
      while true
        invariant LedgerOk(ledger) && Extends(old(ledger), ledger)
        invariant Chained(old(ledger), log, ledger) && Explained(old(ledger), log, ledger)
        invariant passes == |log|
        invariant LogOk(windows, limit, log, ledger)
        invariant emitted == Emits(log) && |ledger.batches| == |old(ledger).batches| + emitted
        decreases |Waits(ledger)|
      {
        var waiting := ListWaiting(ledger);
        if waiting == [] {
          NothingWaiting(ledger, windows(passes), limit, waiting);
          return;
        }
        var w := windows(passes);
        var stale := Stales(ledger, w, waiting);
        StalesAvailable(ledger, w, waiting);
        ghost var p := Pass(ledger, w, waiting, stale, DropStale);
        var after := ledger;
        if stale != [] {
          StalesOk(p, limit);
          after := Discard(ledger, stale).ledger;
        } else {
          var selected := Select(ledger, limit, waiting);
          if selected == [] {
            NothingReady(ledger, w, limit, waiting);
            return;
          }
          var samples := Samples(ledger, selected);
          p := Pass(ledger, w, waiting, selected, if samples == [] then DropEmpty else EmitBatch);
          SelectionOk(p, limit);
          if samples == [] {
            after := Discard(ledger, selected).ledger;
          } else {
            after := RecordBatch(ledger, Batch(samples, |ledger.batches| + 1), selected).ledger;
            emitted := emitted + 1;
          }
        }
        AfterIs(p);
        PassEffect(p, limit);
        LogAdded(windows, limit, log, p);
        PassAdded(old(ledger), log, p);
        ExtendsTransitive(old(ledger), ledger, after);
        ledger, log, passes := after, log + [p], passes + 1;
      }
    }
  }

  lemma ExtendsTransitive(a: Ledger, b: Ledger, c: Ledger)
    requires Extends(a, b) && Extends(b, c)
    ensures Extends(a, c)
  {
  }

  lemma Started(windows: nat -> Window, limit: Limit, s: Ledger)
    ensures Extends(s, s) && Chained(s, [], s) && Explained(s, [], s) && LogOk(windows, limit, [], s)
  {
  }

  lemma LogAdded(windows: nat -> Window, limit: Limit, log: seq<Pass>, p: Pass)
    requires LogOk(windows, limit, log, p.before) && Extends(p.before, After(p))
    requires p.window == windows(|log|) && PassOk(p, limit) && Stands(p, After(p))
    ensures LogOk(windows, limit, log + [p], After(p))
  {
    hide Extends;
    hide Stands;
    hide PassOk;
    hide After;
    var longer := log + [p];
    forall i | 0 <= i < |longer| ensures longer[i].window == windows(i) && PassOk(longer[i], limit) && Stands(longer[i], After(p)) {
      if i < |log| { StandsStill(log[i], p.before, After(p)); }
    }
  }

  lemma AfterIs(p: Pass)
    ensures p.deed.EmitBatch? ==> After(p) == RecordBatch(p.before, Batch(Samples(p.before, p.members), |p.before.batches| + 1), p.members).ledger
    ensures !p.deed.EmitBatch? ==> After(p) == Discard(p.before, p.members).ledger
  {
  }

  lemma InLonger(log: seq<Pass>, p: Pass, k: Key)
    requires InPass(log, k) || k in p.members
    ensures InPass(log + [p], k)
  {
    if InPass(log, k) {
      var i :| 0 <= i < |log| && k in log[i].members;
      assert (log + [p])[i] == log[i];
    } else {
      assert (log + [p])[|log|] == p;
    }
  }

  /** The others wait on. */
  ghost predicate OnlyMembers(p: Pass, to: Ledger) {
    forall k :: k in p.before.places && k !in p.members ==> k in to.places && to.places[k] == p.before.places[k]
  }

  lemma PassAdded(s: Ledger, log: seq<Pass>, p: Pass)
    requires Chained(s, log, p.before) && Explained(s, log, p.before) && Extends(s, p.before) && OnlyMembers(p, After(p))
    ensures Chained(s, log + [p], After(p)) && Explained(s, log + [p], After(p))
    ensures Emits(log + [p]) == Emits(log) + if p.deed.EmitBatch? then 1 else 0
  {
    hide After;
    var longer := log + [p];
    assert longer[|longer| - 1] == p && longer[..|log|] == log;
    forall k | k in s.places && s.places[k].Unbatched? && k in After(p).places && !After(p).places[k].Unbatched?
      ensures InPass(longer, k)
    {
      assert k in p.before.places;
      if k !in p.members { assert InPass(log, k); }
      InLonger(log, p, k);
    }
    hide Explained;
    hide Extends;
  }

  lemma StalesAvailable(s: Ledger, w: Window, ks: seq<Key>)
    requires Listed(s, ks, Waits(s))
    ensures Available(s, Stales(s, w, ks))
    ensures Stales(s, w, ks) == [] ==> forall k :: k in ks ==> !IsStale(s, w, k)
  {
    hide Precedes;
    hide IsStale;
    hide Available;
    StalesOrdered(s, w, ks);
    OrderedAvailable(s, Stales(s, w, ks));
  }

  lemma StalesOk(p: Pass, limit: Limit)
    requires Listed(p.before, p.listing, Waits(p.before)) && p.members == Stales(p.before, p.window, p.listing) != [] && p.deed.DropStale?
    ensures PassOk(p, limit)
  {
    hide Precedes;
    hide IsStale;
    StalesOrdered(p.before, p.window, p.listing);
  }

  lemma SelectionOk(p: Pass, limit: Limit)
    requires Listed(p.before, p.listing, Waits(p.before)) && (forall k :: k in p.listing ==> !IsStale(p.before, p.window, k))
    requires p.members != [] && Selected(p.before, limit, p.listing, p.members)
    requires p.deed == if Samples(p.before, p.members) == [] then DropEmpty else EmitBatch
    ensures PassOk(p, limit)
  {
    hide Listed;
    hide Selected;
    hide IsStale;
  }

  /** The members of a pass wait. */
  lemma MembersAvailable(p: Pass, limit: Limit)
    requires PassOk(p, limit)
    ensures Available(p.before, p.members)
  {
    hide IsStale;
    hide Selected;
    hide Samples;
    hide Precedes;
    if p.deed.DropStale? {
      OrderedAvailable(p.before, p.members);
    } else {
      hide Available;
      hide Listed;
      ChosenAvailable(p.before, limit, p.listing, p.members);
    }
  }

  /** A pass is carried out as intended, moves only its members, and leaves fewer waiting. */
  lemma PassEffect(p: Pass, limit: Limit)
    requires LedgerOk(p.before) && PassOk(p, limit)
    ensures var to := After(p);
            && LedgerOk(to) && Extends(p.before, to) && |Waits(to)| < |Waits(p.before)|
            && Stands(p, to) && OnlyMembers(p, to)
            && |to.batches| == |p.before.batches| + (if p.deed.EmitBatch? then 1 else 0)
  {
    MembersAvailable(p, limit);
    assert p.members != [] && (p.deed.EmitBatch? ==> Samples(p.before, p.members) != []);
    hide PassOk;
    hide LedgerOk;
    hide Extends;
    hide Waits;
    hide Available;
    hide Samples;
    if p.deed.EmitBatch? {
      RecordStep(p.before, StepOf(p), Samples(p.before, p.members), p.members);
      RecordOnly(p.before, NewBatch(p), p.members);
      hide RecordBatch;
    } else {
      DiscardStep(p.before, p.members);
      DiscardOnly(p.before, p.members);
      hide Discard;
    }
  }

  lemma DiscardOnly(s: Ledger, members: seq<Key>)
    requires members != [] && Available(s, members)
    ensures var to := Discard(s, members).ledger;
            && (forall k :: k in members ==> k in to.places && to.places[k].Discarded?)
            && (forall k :: k in s.places && k !in members ==> k in to.places && to.places[k] == s.places[k])
  {
    AvailablePlaces(s, members, None);
    hide WithPlaces;
    hide Available;
    var to := Discard(s, members).ledger;
    forall k | k in members ensures k in to.places && to.places[k].Discarded? {
      var i :| 0 <= i < |members| && members[i] == k;
      assert to.places[members[i]] == PlaceAt(None, i);
    }
  }

  lemma RecordOnly(s: Ledger, batch: Batch, members: seq<Key>)
    requires Available(s, members)
    ensures var to := RecordBatch(s, batch, members).ledger;
            forall k :: k in s.places && k !in members ==> k in to.places && to.places[k] == s.places[k]
  {
    AvailablePlaces(s, members, Some(batch.step));
    hide WithPlaces;
    hide Available;
  }

  lemma DiscardStep(s: Ledger, members: seq<Key>)
    requires LedgerOk(s) && members != [] && Available(s, members)
    ensures var to := Discard(s, members).ledger;
            LedgerOk(to) && Extends(s, to) && |Waits(to)| < |Waits(s)| && to.batches == s.batches
  {
    hide LedgerOk;
    hide Extends;
    hide WithPlaces;
    hide Available;
    hide Waits;
    DiscardKeeps(s, members);
    DiscardExtends(s, members);
    WaitsShrink(s, Discard(s, members).ledger, members);
  }

  lemma RecordStep(s: Ledger, step: nat, samples: seq<Sample>, members: seq<Key>)
    requires LedgerOk(s) && members != [] && samples != [] && Available(s, members) && step == |s.batches| + 1
    ensures var to := RecordBatch(s, Batch(samples, step), members).ledger;
            && LedgerOk(to) && Extends(s, to) && |Waits(to)| < |Waits(s)| && |to.batches| == |s.batches| + 1
            && step in to.batches && to.batches[step] == Batch(samples, step)
            && forall i :: 0 <= i < |members| ==> members[i] in to.places && to.places[members[i]] == Batched(step, i)
  {
    var batch := Batch(samples, step);
    var to := RecordBatch(s, batch, members).ledger;
    assert StepsOk(s);
    hide LedgerOk;
    hide Extends;
    hide WithPlaces;
    hide Available;
    hide Waits;
    hide IsNextStep;
    hide RecordBatch;
    RecordBatchKeeps(s, batch, members);
    RecordExtends(s, step, batch, members);
    WaitsShrink(s, to, members);
  }

  lemma NothingWaiting(s: Ledger, w: Window, limit: Limit, ks: seq<Key>)
    requires Listed(s, ks, Waits(s)) && ks == [] && limit.n >= 1
    ensures Exhausted(s, w, limit)
  {
    hide Listed;
    hide IsStale;
    forall x ensures !IsReady(s, limit, [], x) {
      assert Of(s, [], x) == [];
    }
  }

  lemma NothingReady(s: Ledger, w: Window, limit: Limit, ks: seq<Key>)
    requires Listed(s, ks, Waits(s)) && (forall k :: k in ks ==> !IsStale(s, w, k)) && Selected(s, limit, ks, [])
    ensures Exhausted(s, w, limit)
  {
    hide Listed;
    hide IsStale;
    hide NoneReady;
  }

  /** The pass dropped the rollout because it was stale for the window read, or selected without a sample. */
  ghost predicate DropReason(p: Pass, limit: Limit, k: Key) {
    || (p.deed.DropStale? && k in p.listing && IsStale(p.before, p.window, k))
    || (p.deed.DropEmpty? && k in p.members && Chosen(p, limit) && Samples(p.before, p.members) == [])
  }

  lemma MemberStands(p: Pass, s: Ledger, k: Key)
    requires Stands(p, s) && k in p.members
    ensures k in s.places && (s.places[k].Batched? <==> p.deed.EmitBatch?)
  {
    var i :| 0 <= i < |p.members| && p.members[i] == k;
    assert p.deed.EmitBatch? ==> s.places[p.members[i]] == Batched(StepOf(p), i);
  }

  /** No rollout is lost but for one of the two reasons the loop has. */
  lemma LossExplained(windows: nat -> Window, limit: Limit, s: Ledger, log: seq<Pass>, to: Ledger, k: Key)
    requires Explained(s, log, to) && LogOk(windows, limit, log, to)
    requires k in s.places && s.places[k].Unbatched? && k in to.places && to.places[k].Discarded?
    ensures exists i :: 0 <= i < |log| && log[i].window == windows(i) && DropReason(log[i], limit, k)
  {
    var i :| 0 <= i < |log| && k in log[i].members;
    assert PassOk(log[i], limit) && Stands(log[i], to);
    hide Listed;
    hide Selected;
    hide IsStale;
    hide NewBatch;
    hide StepOf;
    MemberStands(log[i], to, k);
    assert DropReason(log[i], limit, k);
  }

  /** The samples of a selection are of one policy, within the lag window read for it. */
  lemma EmittedPolicy(p: Pass, limit: Limit)
    requires PassOk(p, limit) && !p.deed.DropStale? && PlacesOk(p.before) && PoliciesOk(p.before)
    ensures var samples := Samples(p.before, p.members);
            && (forall i, j :: 0 <= i < |samples| && 0 <= j < |samples| ==> samples[i].policy == samples[j].policy)
            && (forall i :: 0 <= i < |samples| ==> !Beyond(p.window, samples[i].policy.version))
  {
    hide Earliest;
    ChosenAvailable(p.before, limit, p.listing, p.members);
    var x :| OfOne(p.before, p.members, x);
    assert p.members[0] in p.members && !IsStale(p.before, p.window, p.members[0]);
    hide Selected;
    hide Listed;
    hide IdentityOf;
    OnePolicy(p.before, p.members, x);
    hide PoliciesOk;
    hide Samples;
  }
}
