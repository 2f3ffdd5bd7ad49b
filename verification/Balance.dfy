/**
 Near-equal partitioning of weighted micro batches into equal-sized groups: the largest-differencing
 method on equal-cardinality tuples, followed by greedy refinement through pairwise swaps.
 */
module Balance {
  import opened Sequences

  // ---------------------------------------------------------------- loads

  predicate IndicesBelow(items: seq<nat>, n: nat) {
    forall i :: 0 <= i < |items| ==> items[i] < n
  }

  function Load(w: seq<int>, items: seq<nat>): int
    requires IndicesBelow(items, |w|)
  {
    if items == [] then 0 else w[items[0]] + Load(w, items[1..])
  }

  lemma {:induction false} LoadConcat(w: seq<int>, a: seq<nat>, b: seq<nat>)
    requires IndicesBelow(a, |w|) && IndicesBelow(b, |w|)
    ensures Load(w, a + b) == Load(w, a) + Load(w, b)
  {
    if a == [] {
      assert a + b == b;
    } else {
      assert (a + b)[1..] == a[1..] + b;
      LoadConcat(w, a[1..], b);
    }
  }

  lemma {:induction false} LoadUpdate(w: seq<int>, a: seq<nat>, p: nat, x: nat)
    requires IndicesBelow(a, |w|) && p < |a| && x < |w|
    ensures Load(w, a[p := x]) == Load(w, a) - w[a[p]] + w[x]
  {
    if p == 0 {
      assert a[p := x][1..] == a[1..];
    } else {
      assert a[p := x][1..] == a[1..][p - 1 := x];
      LoadUpdate(w, a[1..], p - 1, x);
    }
  }

  predicate PartsBelow(parts: seq<seq<nat>>, n: nat) {
    forall g :: 0 <= g < |parts| ==> IndicesBelow(parts[g], n)
  }

  function PartitionLoads(w: seq<int>, parts: seq<seq<nat>>): (loads: seq<int>)
    requires PartsBelow(parts, |w|)
    ensures |loads| == |parts|
    ensures forall g :: 0 <= g < |parts| ==> loads[g] == Load(w, parts[g])
  {
    seq(|parts|, g requires 0 <= g < |parts| => Load(w, parts[g]))
  }

  function MaxOf(s: seq<int>): (m: int)
    requires s != []
    ensures m in s && forall i :: 0 <= i < |s| ==> s[i] <= m
  {
    if |s| == 1 then s[0] else Max(s[0], MaxOf(s[1..]))
  }

  function MinOf(s: seq<int>): (m: int)
    requires s != []
    ensures m in s && forall i :: 0 <= i < |s| ==> m <= s[i]
  {
    if |s| == 1 then s[0] else Min(s[0], MinOf(s[1..]))
  }

  function Spread(loads: seq<int>): (r: int)
    requires loads != []
    ensures r >= 0
  {
    MaxOf(loads) - MinOf(loads)
  }

  // ---------------------------------------------------------------- sorted weights

  datatype Weighted = Weighted(weight: int, idx: nat)

  predicate PairLess(a: Weighted, b: Weighted) {
    a.weight < b.weight || (a.weight == b.weight && a.idx < b.idx)
  }

  predicate Ascending(s: seq<Weighted>) {
    forall i, j :: 0 <= i < j < |s| ==> s[i].weight <= s[j].weight
  }

  function Indices(s: seq<Weighted>): (r: seq<nat>)
    ensures |r| == |s|
  {
    if s == [] then [] else [s[0].idx] + Indices(s[1..])
  }

  function InsertPair(p: Weighted, s: seq<Weighted>): (r: seq<Weighted>)
    ensures |r| == |s| + 1
    ensures forall i :: 0 <= i < |r| ==> r[i] == p || r[i] in s
  {
    if s == [] then [p]
    else if PairLess(p, s[0]) then [p] + s
    else [s[0]] + InsertPair(p, s[1..])
  }

  lemma {:induction false} InsertPairSorted(p: Weighted, s: seq<Weighted>)
    requires Ascending(s)
    ensures Ascending(InsertPair(p, s))
  {
    if s != [] && !PairLess(p, s[0]) {
      InsertPairSorted(p, s[1..]);
    }
  }

  lemma {:induction false} InsertPairIndices(p: Weighted, s: seq<Weighted>)
    ensures multiset(Indices(InsertPair(p, s))) == multiset{p.idx} + multiset(Indices(s))
  {
    if s == [] {
    } else if PairLess(p, s[0]) {
      assert ([p] + s)[1..] == s;
    } else {
      InsertPairIndices(p, s[1..]);
      assert InsertPair(p, s)[1..] == InsertPair(p, s[1..]);
    }
  }

  /** `sorted((weight, idx) for idx, weight in enumerate(w))`, restricted to the first n entries. */
  function SortedPairs(w: seq<int>, n: nat): (r: seq<Weighted>)
    requires n <= |w|
    ensures |r| == n
    ensures forall i :: 0 <= i < n ==> r[i].idx < n && r[i].weight == w[r[i].idx]
  {
    if n == 0 then [] else InsertPair(Weighted(w[n - 1], n - 1), SortedPairs(w, n - 1))
  }

  lemma {:induction false} SortedPairsSorted(w: seq<int>, n: nat)
    requires n <= |w|
    ensures Ascending(SortedPairs(w, n))
  {
    if n > 0 {
      SortedPairsSorted(w, n - 1);
      InsertPairSorted(Weighted(w[n - 1], n - 1), SortedPairs(w, n - 1));
    }
  }

  lemma {:induction false} SortedPairsIndices(w: seq<int>, n: nat)
    requires n <= |w|
    ensures multiset(Indices(SortedPairs(w, n))) == multiset(Range(n))
  {
    if n > 0 {
      SortedPairsIndices(w, n - 1);
      InsertPairIndices(Weighted(w[n - 1], n - 1), SortedPairs(w, n - 1));
      RangeStep(n);
    }
  }

  /** The largest spread of a run of k consecutive sorted weights that starts at a multiple of k. */
  function ChunkSpread(s: seq<Weighted>, k: nat): int
    requires k > 0
    decreases |s|
  {
    if |s| < k then 0 else Max(s[k - 1].weight - s[0].weight, ChunkSpread(s[k..], k))
  }

  lemma {:induction false} ChunkSpreadBound(s: seq<Weighted>, k: nat)
    requires k > 0 && Ascending(s)
    ensures ChunkSpread(s, k) >= 0
    ensures s != [] ==> ChunkSpread(s, k) <= s[|s| - 1].weight - s[0].weight
    decreases |s|
  {
    if |s| >= k {
      ChunkSpreadBound(s[k..], k);
    }
  }

  lemma {:induction false} ChunkWithin(s: seq<Weighted>, k: nat, c: nat, j: nat)
    requires k > 0 && Ascending(s)
    requires c == j * k && c + k <= |s|
    ensures s[c + k - 1].weight - s[c].weight <= ChunkSpread(s, k)
    decreases j
  {
    if j > 0 {
      assert c - k == (j - 1) * k;
      ChunkWithin(s[k..], k, c - k, j - 1);
    }
  }

  // ---------------------------------------------------------------- weighted sets

  /** A group under construction: the indices it holds and the sum of their weights. */
  datatype WeightedSet = WeightedSet(total: int, items: seq<nat>) {
    function Add(idx: nat, weight: int): WeightedSet {
      WeightedSet(total + weight, items + [idx])
    }

    function Merge(other: WeightedSet): WeightedSet {
      WeightedSet(total + other.total, items + other.items)
    }

    predicate Less(other: WeightedSet) {
      if total != other.total then total < other.total else ListLess(items, other.items)
    }
  }

  /** Lexicographic order on index lists. */
  predicate ListLess(a: seq<nat>, b: seq<nat>) {
    if b == [] then false
    else if a == [] then true
    else if a[0] != b[0] then a[0] < b[0]
    else ListLess(a[1..], b[1..])
  }

  predicate Descending(sets: seq<WeightedSet>) {
    forall i, j :: 0 <= i < j < |sets| ==> sets[i].total >= sets[j].total
  }

  function ItemsBag(sets: seq<WeightedSet>): multiset<nat> {
    if sets == [] then multiset{} else multiset(sets[0].items) + ItemsBag(sets[1..])
  }

  function InsertSet(x: WeightedSet, s: seq<WeightedSet>): (r: seq<WeightedSet>)
    ensures |r| == |s| + 1
    ensures forall i :: 0 <= i < |r| ==> r[i] == x || r[i] in s
  {
    if s == [] then [x]
    else if s[0].Less(x) then [x] + s
    else [s[0]] + InsertSet(x, s[1..])
  }

  lemma {:induction false} InsertSetSorted(x: WeightedSet, s: seq<WeightedSet>)
    requires Descending(s)
    ensures Descending(InsertSet(x, s))
  {
    if s != [] && !s[0].Less(x) {
      InsertSetSorted(x, s[1..]);
    }
  }

  lemma {:induction false} InsertSetItems(x: WeightedSet, s: seq<WeightedSet>)
    ensures ItemsBag(InsertSet(x, s)) == multiset(x.items) + ItemsBag(s)
  {
    if s == [] {
    } else if s[0].Less(x) {
      assert ([x] + s)[1..] == s;
    } else {
      InsertSetItems(x, s[1..]);
      assert InsertSet(x, s)[1..] == InsertSet(x, s[1..]);
    }
  }

  /** `sets.sort(reverse=True)` */
  function SortSets(s: seq<WeightedSet>): (r: seq<WeightedSet>)
    ensures |r| == |s|
    ensures forall i :: 0 <= i < |r| ==> r[i] in s
  {
    if s == [] then [] else InsertSet(s[0], SortSets(s[1..]))
  }

  lemma {:induction false} SortSetsSorted(s: seq<WeightedSet>)
    ensures Descending(SortSets(s))
    ensures ItemsBag(SortSets(s)) == ItemsBag(s)
  {
    if s != [] {
      SortSetsSorted(s[1..]);
      InsertSetSorted(s[0], SortSets(s[1..]));
      InsertSetItems(s[0], SortSets(s[1..]));
    }
  }

  function InitialSets(items: seq<Weighted>, k: nat): (r: seq<WeightedSet>)
    ensures |r| == k
  {
    seq(k, i => if 0 <= i < |items| then WeightedSet(items[i].weight, [items[i].idx]) else WeightedSet(0, []))
  }

  /** The heaviest set of one state receives the lightest set of the other, and so on. */
  function MergedSets(a: seq<WeightedSet>, b: seq<WeightedSet>): (r: seq<WeightedSet>)
    requires |a| == |b|
    ensures |r| == |a|
  {
    seq(|a|, i requires 0 <= i < |a| => a[i].Merge(b[|a| - 1 - i]))
  }

  predicate GoodSet(w: seq<int>, x: WeightedSet, size: nat) {
    |x.items| == size && IndicesBelow(x.items, |w|) && x.total == Load(w, x.items)
  }

  predicate AllGood(w: seq<int>, sets: seq<WeightedSet>, size: nat) {
    forall i :: 0 <= i < |sets| ==> GoodSet(w, sets[i], size)
  }

  /** No two sets differ by more than the bound. */
  predicate Within(sets: seq<WeightedSet>, bound: int) {
    forall i, j :: 0 <= i < |sets| && 0 <= j < |sets| ==> sets[i].total - sets[j].total <= bound
  }

  lemma SortKeepsWithin(s: seq<WeightedSet>, bound: int)
    requires Within(s, bound)
    ensures Within(SortSets(s), bound)
  {
    var r := SortSets(s);
    forall i, j | 0 <= i < |r| && 0 <= j < |r| ensures r[i].total - r[j].total <= bound {
      assert r[i] in s && r[j] in s;
    }
  }

  lemma SortKeepsGood(w: seq<int>, s: seq<WeightedSet>, size: nat)
    requires AllGood(w, s, size)
    ensures AllGood(w, SortSets(s), size)
  {
    var r := SortSets(s);
    forall i | 0 <= i < |r| ensures GoodSet(w, r[i], size) {
      assert r[i] in s;
    }
  }

  /** Merging in opposite orders never exceeds the larger of the two spreads. */
  lemma MergeSpread(a: seq<WeightedSet>, b: seq<WeightedSet>, spreadA: int, spreadB: int)
    requires |a| == |b|
    requires Descending(a) && Descending(b)
    requires Within(a, spreadA) && Within(b, spreadB)
    ensures Within(SortSets(MergedSets(a, b)), Max(spreadA, spreadB))
  {
    var m := MergedSets(a, b);
    forall i, j | 0 <= i < |m| && 0 <= j < |m| ensures m[i].total - m[j].total <= Max(spreadA, spreadB) {
      var bi, bj := |a| - 1 - i, |a| - 1 - j;
      assert m[i].total == a[i].total + b[bi].total && m[j].total == a[j].total + b[bj].total;
      assert a[i].total - a[j].total <= spreadA && b[bi].total - b[bj].total <= spreadB;
      if i < j {
        assert b[bj].total >= b[bi].total;
      } else if j < i {
        assert a[j].total >= a[i].total;
      }
    }
    SortKeepsWithin(m, Max(spreadA, spreadB));
  }

  lemma {:induction false} ItemsBagConcat(a: seq<WeightedSet>, b: seq<WeightedSet>)
    ensures ItemsBag(a + b) == ItemsBag(a) + ItemsBag(b)
  {
    if a == [] {
      assert a + b == b;
    } else {
      assert (a + b)[1..] == a[1..] + b;
      ItemsBagConcat(a[1..], b);
    }
  }

  lemma {:induction false} MergeKeepsItems(a: seq<WeightedSet>, b: seq<WeightedSet>)
    requires |a| == |b|
    ensures ItemsBag(MergedSets(a, b)) == ItemsBag(a) + ItemsBag(b)
  {
    if a != [] {
      var last := |b| - 1;
      assert MergedSets(a, b)[1..] == MergedSets(a[1..], b[..last]);
      MergeKeepsItems(a[1..], b[..last]);
      assert b == b[..last] + [b[last]];
      ItemsBagConcat(b[..last], [b[last]]);
      assert ItemsBag([b[last]]) == multiset(b[last].items) + ItemsBag([b[last]][1..]);
    }
  }

  lemma MergeKeepsGood(w: seq<int>, a: seq<WeightedSet>, b: seq<WeightedSet>, m: nat, n: nat)
    requires |a| == |b| && AllGood(w, a, m) && AllGood(w, b, n)
    ensures AllGood(w, MergedSets(a, b), m + n)
  {
    forall i | 0 <= i < |a| ensures GoodSet(w, MergedSets(a, b)[i], m + n) {
      assert GoodSet(w, a[i], m) && GoodSet(w, b[|a| - 1 - i], n);
      LoadConcat(w, a[i].items, b[|a| - 1 - i].items);
    }
  }

  lemma {:induction false} ItemsBagSize(w: seq<int>, sets: seq<WeightedSet>, size: nat)
    requires AllGood(w, sets, size)
    ensures |ItemsBag(sets)| == |sets| * size
  {
    if sets != [] {
      assert GoodSet(w, sets[0], size);
      ItemsBagSize(w, sets[1..], size);
      MulSucc(|sets| - 1, size);
    }
  }

  // ---------------------------------------------------------------- one state of the heap

  class KKState {
    var sets: seq<WeightedSet>

    constructor (items: seq<Weighted>, k: nat)
      requires |items| <= k
      ensures sets == SortSets(InitialSets(items, k))
    {
      var filled := seq(k, _ => WeightedSet(0, []));
      for i := 0 to |items|
        invariant |filled| == k
        invariant forall j :: 0 <= j < k ==> filled[j] == if j < i then WeightedSet(items[j].weight, [items[j].idx]) else WeightedSet(0, [])
      {
        filled := filled[i := filled[i].Add(items[i].idx, items[i].weight)];
      }
      assert filled == InitialSets(items, k);
      sets := SortSets(filled);
    }

    function StateSpread(): int
      requires sets != []
      reads this
    {
      sets[0].total - sets[|sets| - 1].total
    }

    predicate Before(other: KKState)
      requires sets != [] && other.sets != []
      reads this, other
    {
      if StateSpread() != other.StateSpread() then StateSpread() > other.StateSpread()
      else other.sets[0].Less(sets[0])
    }

    method Merge(other: KKState)
      requires other != this && |other.sets| == |sets|
      modifies this
      ensures sets == SortSets(MergedSets(old(sets), other.sets))
    {
      var k := |sets|;
      for i := 0 to k
        invariant |sets| == k && other.sets == old(other.sets)
        invariant forall j :: 0 <= j < k ==> sets[j] == if j < i then old(sets)[j].Merge(other.sets[k - 1 - j]) else old(sets)[j]
      {
        sets := sets[i := sets[i].Merge(other.sets[k - 1 - i])];
      }
      assert sets == MergedSets(old(sets), other.sets);
      sets := SortSets(sets);
    }
  }

  // ---------------------------------------------------------------- the heap of states

  /** The items of all states; a heap is described by the sequence of its states' sets. */
  function HeapBag(c: seq<seq<WeightedSet>>): multiset<nat> {
    if c == [] then multiset{} else ItemsBag(c[0]) + HeapBag(c[1..])
  }

  function RemoveAt<T>(c: seq<T>, i: nat): (r: seq<T>)
    requires i < |c|
    ensures |r| == |c| - 1
  {
    c[..i] + c[i + 1..]
  }

  lemma {:induction false} HeapBagRemove(c: seq<seq<WeightedSet>>, i: nat)
    requires i < |c|
    ensures HeapBag(c) == ItemsBag(c[i]) + HeapBag(RemoveAt(c, i))
  {
    if i == 0 {
      assert RemoveAt(c, 0) == c[1..];
    } else {
      HeapBagRemove(c[1..], i - 1);
      assert RemoveAt(c, i)[1..] == RemoveAt(c[1..], i - 1);
    }
  }

  lemma {:induction false} HeapBagAppend(c: seq<seq<WeightedSet>>, s: seq<WeightedSet>)
    ensures HeapBag(c + [s]) == HeapBag(c) + ItemsBag(s)
  {
    if c == [] {
      assert c + [s] == [s];
      assert HeapBag([s]) == ItemsBag(s) + HeapBag([s][1..]);
    } else {
      assert (c + [s])[1..] == c[1..] + [s];
      HeapBagAppend(c[1..], s);
    }
  }

  predicate GoodState(w: seq<int>, k: nat, bound: int, sets: seq<WeightedSet>)
    requires k > 0
  {
    |sets| == k && Descending(sets) && Within(sets, bound) && AllGood(w, sets, |sets[0].items|)
  }

  /** Every state in the heap has k equal-sized, correctly totalled, descending sets within the bound. */
  predicate GoodStates(w: seq<int>, k: nat, bound: int, c: seq<seq<WeightedSet>>)
    requires k > 0
  {
    forall i :: 0 <= i < |c| ==> GoodState(w, k, bound, c[i])
  }

  predicate Distinct(states: seq<KKState>) {
    forall i, j :: 0 <= i < j < |states| ==> states[i] != states[j]
  }

  predicate Mirrors(states: seq<KKState>, c: seq<seq<WeightedSet>>)
    reads states
  {
    |c| == |states| && Distinct(states) && forall i :: 0 <= i < |c| ==> states[i].sets == c[i]
  }

  lemma NothingMirrored()
    ensures Mirrors([], [])
  {}

  lemma MirrorsAppend(states: seq<KKState>, c: seq<seq<WeightedSet>>, s: KKState)
    requires Mirrors(states, c) && s !in states
    ensures Mirrors(states + [s], c + [s.sets])
  {}

  lemma OneMirrored(states: seq<KKState>, c: seq<seq<WeightedSet>>)
    requires |states| == 1 && Mirrors(states, c)
    ensures c == [states[0].sets]
  {}

  lemma RemovedMembers(states: seq<KKState>, at: nat, other: KKState)
    requires at < |states| && other !in states
    ensures other !in RemoveAt(states, at) && states[at] != other
  {}

  lemma {:induction false} ListLessStrict(a: seq<nat>)
    ensures !ListLess(a, a)
  {
    if a != [] { ListLessStrict(a[1..]); }
  }

  lemma {:induction false} ListLessTransitive(a: seq<nat>, b: seq<nat>, c: seq<nat>)
    requires ListLess(a, b) && ListLess(b, c)
    ensures ListLess(a, c)
  {
    if a != [] && a[0] == b[0] == c[0] {
      ListLessTransitive(a[1..], b[1..], c[1..]);
    }
  }

  lemma BeforeStrict(x: KKState)
    requires x.sets != []
    ensures !x.Before(x)
  {
    ListLessStrict(x.sets[0].items);
    hide ListLess;
  }

  lemma BeforeTransitive(x: KKState, y: KKState, z: KKState)
    requires x.sets != [] && y.sets != [] && z.sets != [] && x.Before(y) && y.Before(z)
    ensures x.Before(z)
  {
    if ListLess(z.sets[0].items, y.sets[0].items) && ListLess(y.sets[0].items, x.sets[0].items) {
      ListLessTransitive(z.sets[0].items, y.sets[0].items, x.sets[0].items);
    }
    hide ListLess;
  }

  /** No state of the heap comes before `first`. */
  ghost predicate ComesFirst(states: seq<KKState>, first: KKState)
    reads states, first
  {
    first.sets != [] && forall i :: 0 <= i < |states| ==> states[i].sets != [] && !states[i].Before(first)
  }

  lemma FirstSoFar(states: seq<KKState>, i: nat, first: KKState, to: KKState)
    requires i < |states| && states[i].sets != [] && ComesFirst(states[..i], first)
    requires to == (if states[i].Before(first) then states[i] else first)
    ensures ComesFirst(states[..i + 1], to)
  {
    assert forall j :: 0 <= j < i ==> states[..i][j] == states[j];
    forall j | 0 <= j < i + 1 ensures states[j].sets != [] && !states[j].Before(to) {
      if j < i && to != first && states[j].Before(to) {
        BeforeTransitive(states[j], to, first);
      }
      if j == i { BeforeStrict(states[i]); }
    }
  }

  /** `heappop`: removes the state that comes before every other one. */
  method PopFirst(states: seq<KKState>, ghost c: seq<seq<WeightedSet>>) returns (first: KKState, rest: seq<KKState>, ghost at: nat)
    requires states != [] && Mirrors(states, c)
    requires forall i :: 0 <= i < |c| ==> c[i] != []
    ensures at < |states| && first == states[at] && first.sets == c[at] && rest == RemoveAt(states, at)
    ensures Mirrors(rest, RemoveAt(c, at)) && first !in rest
    ensures ComesFirst(states, first)
  {
    var index := 0;
    BeforeStrict(states[0]);
    for i := 1 to |states|
      invariant 0 <= index < i <= |states|
      invariant ComesFirst(states[..i], states[index])
    {
      FirstSoFar(states, i, states[index], if states[i].Before(states[index]) then states[i] else states[index]);
      if states[i].Before(states[index]) { index := i; }
    }
    assert states[..|states|] == states;
    at := index;
    first, rest := states[index], RemoveAt(states, index);
  }

  lemma GoodInitial(w: seq<int>, s: seq<Weighted>, k: nat, c: nat, j: nat)
    requires k > 0 && Ascending(s)
    requires forall i :: 0 <= i < |s| ==> s[i].idx < |w| && s[i].weight == w[s[i].idx]
    requires c == j * k && c + k <= |s|
    ensures GoodState(w, k, ChunkSpread(s, k), SortSets(InitialSets(s[c..c + k], k)))
    ensures ItemsBag(SortSets(InitialSets(s[c..c + k], k))) == multiset(Indices(s[c..c + k]))
  {
    var items := s[c..c + k];
    var init := InitialSets(items, k);
    ChunkWithin(s, k, c, j);
    forall i | 0 <= i < k ensures GoodSet(w, init[i], 1) {
      assert items[i] == s[c + i];
      assert Load(w, [items[i].idx]) == w[items[i].idx] + Load(w, [items[i].idx][1..]);
    }
    assert Within(init, ChunkSpread(s, k)) by {
      forall i, j | 0 <= i < k && 0 <= j < k ensures init[i].total - init[j].total <= ChunkSpread(s, k) {
        assert init[i].total == s[c + i].weight && init[j].total == s[c + j].weight;
        assert s[c + i].weight <= s[c + k - 1].weight && s[c].weight <= s[c + j].weight;
      }
    }
    SortKeepsWithin(init, ChunkSpread(s, k));
    SortKeepsGood(w, init, 1);
    SortSetsSorted(init);
    assert GoodSet(w, SortSets(init)[0], 1);
    InitialItems(items);
    assert init == InitialSets(items, |items|);
  }

  lemma {:induction false} InitialItems(items: seq<Weighted>)
    ensures ItemsBag(InitialSets(items, |items|)) == multiset(Indices(items))
  {
    if items != [] {
      assert InitialSets(items, |items|)[1..] == InitialSets(items[1..], |items| - 1);
      InitialItems(items[1..]);
    }
  }

  lemma {:induction false} IndicesConcat(a: seq<Weighted>, b: seq<Weighted>)
    ensures Indices(a + b) == Indices(a) + Indices(b)
  {
    if a == [] {
      assert a + b == b;
    } else {
      assert (a + b)[1..] == a[1..] + b;
      IndicesConcat(a[1..], b);
    }
  }

  lemma MergedState(w: seq<int>, k: nat, bound: int, a: seq<WeightedSet>, b: seq<WeightedSet>)
    requires k > 0 && GoodState(w, k, bound, a) && GoodState(w, k, bound, b)
    ensures GoodState(w, k, bound, SortSets(MergedSets(a, b)))
    ensures ItemsBag(SortSets(MergedSets(a, b))) == ItemsBag(a) + ItemsBag(b)
  {
    var size := |a[0].items| + |b[0].items|;
    MergeSpread(a, b, bound, bound);
    MergeKeepsItems(a, b);
    MergeKeepsGood(w, a, b, |a[0].items|, |b[0].items|);
    SortKeepsGood(w, MergedSets(a, b), size);
    SortSetsSorted(MergedSets(a, b));
    assert GoodSet(w, SortSets(MergedSets(a, b))[0], size);
  }

  // ---------------------------------------------------------------- partitions

  function InsertNat(x: nat, s: seq<nat>): (r: seq<nat>)
    ensures |r| == |s| + 1
  {
    if s == [] then [x] else if x <= s[0] then [x] + s else [s[0]] + InsertNat(x, s[1..])
  }

  function SortNats(s: seq<nat>): (r: seq<nat>)
    ensures |r| == |s|
  {
    if s == [] then [] else InsertNat(s[0], SortNats(s[1..]))
  }

  lemma {:induction false} InsertNatLoad(w: seq<int>, x: nat, s: seq<nat>)
    requires x < |w| && IndicesBelow(s, |w|)
    ensures IndicesBelow(InsertNat(x, s), |w|)
    ensures Load(w, InsertNat(x, s)) == w[x] + Load(w, s)
    ensures multiset(InsertNat(x, s)) == multiset{x} + multiset(s)
  {
    if s == [] {
    } else if x <= s[0] {
      assert ([x] + s)[1..] == s;
    } else {
      InsertNatLoad(w, x, s[1..]);
      assert s == [s[0]] + s[1..];
      assert InsertNat(x, s)[1..] == InsertNat(x, s[1..]);
    }
  }

  lemma {:induction false} SortNatsLoad(w: seq<int>, s: seq<nat>)
    requires IndicesBelow(s, |w|)
    ensures IndicesBelow(SortNats(s), |w|)
    ensures Load(w, SortNats(s)) == Load(w, s)
    ensures multiset(SortNats(s)) == multiset(s)
  {
    if s != [] {
      SortNatsLoad(w, s[1..]);
      assert s == [s[0]] + s[1..];
      InsertNatLoad(w, s[0], SortNats(s[1..]));
    }
  }

  function Partitions(sets: seq<WeightedSet>): (r: seq<seq<nat>>)
    ensures |r| == |sets|
  {
    if sets == [] then [] else [SortNats(sets[0].items)] + Partitions(sets[1..])
  }

  lemma {:induction false} PartitionsGood(w: seq<int>, sets: seq<WeightedSet>, size: nat)
    requires AllGood(w, sets, size)
    ensures PartsBelow(Partitions(sets), |w|)
    ensures forall g :: 0 <= g < |sets| ==> |Partitions(sets)[g]| == size && Load(w, Partitions(sets)[g]) == sets[g].total
    ensures Bag(Partitions(sets)) == ItemsBag(sets)
  {
    if sets != [] {
      assert GoodSet(w, sets[0], size);
      PartitionsGood(w, sets[1..], size);
      SortNatsLoad(w, sets[0].items);
      var parts := Partitions(sets);
      forall g | 0 <= g < |sets|
        ensures IndicesBelow(parts[g], |w|) && |parts[g]| == size && Load(w, parts[g]) == sets[g].total
      {
        if g > 0 { assert parts[g] == Partitions(sets[1..])[g - 1] && sets[g] == sets[1..][g - 1]; }
      }
    }
  }

  /** k groups of equal size that together hold every index below n exactly once. */
  predicate EqualPartition(parts: seq<seq<nat>>, k: nat, n: nat) {
    && |parts| == k
    && PartsBelow(parts, n)
    && (forall g :: 0 <= g < k ==> |parts[g]| * k == n)
    && Bag(parts) == multiset(Range(n))
  }

  predicate HeldSomewhere(parts: seq<seq<nat>>, x: nat) {
    exists g :: 0 <= g < |parts| && x in parts[g]
  }

  predicate HeldAt(parts: seq<seq<nat>>, x: nat, g: nat, p: nat) {
    g < |parts| && p < |parts[g]| && parts[g][p] == x
  }

  /** What an equal partition says about each index: some group holds it, in one position only. */
  lemma EachIndexOnce(parts: seq<seq<nat>>, k: nat, n: nat, x: nat)
    requires EqualPartition(parts, k, n) && x < n
    ensures HeldSomewhere(parts, x)
    ensures forall g: nat, p: nat, g': nat, p': nat :: HeldAt(parts, x, g, p) && HeldAt(parts, x, g', p') ==> g == g' && p == p'
  {
    RangeCount(n, x);
    assert x in Bag(parts);
    BagHasMember(parts, x);
    forall g: nat, p: nat, g': nat, p': nat | HeldAt(parts, x, g, p) && HeldAt(parts, x, g', p') ensures g == g' && p == p' {
      if (g, p) != (g', p') {
        HeldTwice(parts, x, g, p, g', p');
      }
    }
  }

  lemma HeldTwice(parts: seq<seq<nat>>, x: nat, g: nat, p: nat, g': nat, p': nat)
    requires HeldAt(parts, x, g, p) && HeldAt(parts, x, g', p') && (g, p) != (g', p')
    ensures Bag(parts)[x] >= 2
  {
    if g == g' {
      TwiceInOne(parts[g], Min(p, p'), Max(p, p'));
      BagMember(parts, g);
    } else {
      BagTwoMembers(parts, Min(g, g'), Max(g, g'));
      assert multiset(parts[g])[x] >= 1 && multiset(parts[g'])[x] >= 1;
    }
  }

  lemma TwiceInOne<T>(s: seq<T>, i: nat, j: nat)
    requires i < j < |s| && s[i] == s[j]
    ensures multiset(s)[s[i]] >= 2
  {
    assert s == s[..j] + s[j..];
    assert s[i] in s[..j] && s[i] in s[j..];
  }

  lemma SpreadFromWithin(w: seq<int>, sets: seq<WeightedSet>, parts: seq<seq<nat>>, bound: int)
    requires sets != [] && Within(sets, bound) && |parts| == |sets| && PartsBelow(parts, |w|)
    requires forall g :: 0 <= g < |sets| ==> Load(w, parts[g]) == sets[g].total
    ensures Spread(PartitionLoads(w, parts)) <= bound
  {
    var loads := PartitionLoads(w, parts);
    var i :| 0 <= i < |loads| && loads[i] == MaxOf(loads);
    var j :| 0 <= j < |loads| && loads[j] == MinOf(loads);
    assert sets[i].total - sets[j].total <= bound;
  }

  lemma SizeFromBag(w: seq<int>, sets: seq<WeightedSet>, size: nat, n: nat)
    requires AllGood(w, sets, size) && ItemsBag(sets) == multiset(Range(n))
    ensures size * |sets| == n
  {
    ItemsBagSize(w, sets, size);
    assert |multiset(Range(n))| == n;
  }

  predicate HeapOf(w: seq<int>, k: nat, bound: int, c: seq<seq<WeightedSet>>, items: multiset<nat>)
    requires k > 0
  {
    GoodStates(w, k, bound, c) && HeapBag(c) == items
  }

  lemma PushState(w: seq<int>, k: nat, bound: int, c: seq<seq<WeightedSet>>, items: multiset<nat>, sets: seq<WeightedSet>)
    requires k > 0 && HeapOf(w, k, bound, c, items) && GoodState(w, k, bound, sets)
    ensures HeapOf(w, k, bound, c + [sets], items + ItemsBag(sets))
  {
    hide GoodState;
    HeapBagAppend(c, sets);
  }

  lemma PushChunk(w: seq<int>, s: seq<Weighted>, k: nat, offset: nat, j: nat, c: seq<seq<WeightedSet>>)
    requires k > 0 && Ascending(s) && offset == j * k && offset + k <= |s|
    requires forall i :: 0 <= i < |s| ==> s[i].idx < |w| && s[i].weight == w[s[i].idx]
    requires HeapOf(w, k, ChunkSpread(s, k), c, multiset(Indices(s[..offset])))
    ensures HeapOf(w, k, ChunkSpread(s, k), c + [SortSets(InitialSets(s[offset..offset + k], k))], multiset(Indices(s[..offset + k])))
  {
    hide HeapOf;
    hide GoodState;
    GoodInitial(w, s, k, offset, j);
    PushState(w, k, ChunkSpread(s, k), c, multiset(Indices(s[..offset])), SortSets(InitialSets(s[offset..offset + k], k)));
    IndicesConcat(s[..offset], s[offset..offset + k]);
    assert s[..offset + k] == s[..offset] + s[offset..offset + k];
  }

  method InitialStates(w: seq<int>, k: nat, ghost chunks: nat) returns (states: seq<KKState>, ghost c: seq<seq<WeightedSet>>)
    requires 0 < k <= |w| && |w| == chunks * k
    ensures states != [] && Mirrors(states, c) && fresh(states)
    ensures HeapOf(w, k, ChunkSpread(SortedPairs(w, |w|), k), c, multiset(Range(|w|)))
  {
    hide HeapOf;
    hide Mirrors;
    hide Range;
    hide Ascending;
    hide ChunkSpread;
    hide SortedPairs;
    hide SortSets;
    hide InitialSets;
    hide Indices;
    var sorted := SortedPairs(w, |w|);
    SortedPairsSorted(w, |w|);
    SortedPairsIndices(w, |w|);
    states, c := [], [];
    NothingMirrored();
    var offset := 0;
    ghost var j := 0;
    EmptyHeap(w, k, ChunkSpread(sorted, k), sorted);
    while offset < |sorted|
      invariant 0 <= offset <= |sorted| && offset == j * k && (offset > 0 ==> states != [])
      invariant Mirrors(states, c) && fresh(states)
      invariant HeapOf(w, k, ChunkSpread(sorted, k), c, multiset(Indices(sorted[..offset])))
    {
      ChunkFits(k, chunks, j);
      PushChunk(w, sorted, k, offset, j, c);
      var state := new KKState(sorted[offset..offset + k], k);
      MirrorsAppend(states, c, state);
      states, c := states + [state], c + [state.sets];
      offset, j := offset + k, j + 1;
    }
    assert sorted[..offset] == sorted;
  }

  lemma EmptyHeap(w: seq<int>, k: nat, bound: int, s: seq<Weighted>)
    requires k > 0
    ensures HeapOf(w, k, bound, [], multiset(Indices(s[..0])))
  {}

  lemma ChunkFits(k: nat, chunks: nat, j: nat)
    requires k > 0 && j * k < chunks * k
    ensures (j + 1) * k == j * k + k <= chunks * k
  {
    if chunks <= j {
      MulMonotone(k, chunks, j);
      assert false;
    }
    MulMonotone(k, j + 1, chunks);
  }

  lemma ExactDivision(n: nat, k: nat) returns (chunks: nat)
    requires k > 0 && n % k == 0
    ensures n == chunks * k
  {
    chunks := n / k;
  }

  /** What one round of the merge loop does to the heap. */
  lemma MergeRound(w: seq<int>, k: nat, bound: int, c: seq<seq<WeightedSet>>, at: nat, at': nat, items: multiset<nat>)
    requires k > 0 && at < |c| && at' < |c| - 1 && HeapOf(w, k, bound, c, items)
    ensures |c[at]| == |RemoveAt(c, at)[at']| == k
    ensures HeapOf(w, k, bound, RemoveAt(RemoveAt(c, at), at') + [SortSets(MergedSets(c[at], RemoveAt(c, at)[at']))], items)
  {
    var c1 := RemoveAt(c, at);
    HeapBagRemove(c, at);
    HeapBagRemove(c1, at');
    GoodAt(w, k, bound, c, at);
    GoodRemoved(w, k, bound, c, at);
    GoodAt(w, k, bound, c1, at');
    GoodRemoved(w, k, bound, c1, at');
    MergedState(w, k, bound, c[at], c1[at']);
    HeapBagAppend(RemoveAt(c1, at'), SortSets(MergedSets(c[at], c1[at'])));
  }

  lemma GoodAt(w: seq<int>, k: nat, bound: int, c: seq<seq<WeightedSet>>, at: nat)
    requires k > 0 && at < |c| && GoodStates(w, k, bound, c)
    ensures GoodState(w, k, bound, c[at])
  {}

  lemma GoodRemoved(w: seq<int>, k: nat, bound: int, c: seq<seq<WeightedSet>>, at: nat)
    requires k > 0 && at < |c| && GoodStates(w, k, bound, c)
    ensures GoodStates(w, k, bound, RemoveAt(c, at))
  {
    hide GoodState;
  }

  lemma NonEmptyStates(w: seq<int>, k: nat, bound: int, c: seq<seq<WeightedSet>>, items: multiset<nat>)
    requires k > 0 && HeapOf(w, k, bound, c, items)
    ensures forall i :: 0 <= i < |c| ==> c[i] != []
  {
    forall i | 0 <= i < |c| ensures c[i] != [] { GoodAt(w, k, bound, c, i); }
  }

  /** The last remaining state holds the answer. */
  lemma FinalState(w: seq<int>, k: nat, bound: int, sets: seq<WeightedSet>)
    requires k > 0 && HeapOf(w, k, bound, [sets], multiset(Range(|w|)))
    ensures EqualPartition(Partitions(sets), k, |w|)
    ensures Spread(PartitionLoads(w, Partitions(sets))) <= bound
  {
    GoodAt(w, k, bound, [sets], 0);
    assert HeapBag([sets]) == ItemsBag(sets) + HeapBag([sets][1..]);
    PartitionsGood(w, sets, |sets[0].items|);
    SizeFromBag(w, sets, |sets[0].items|, |w|);
    SpreadFromWithin(w, sets, Partitions(sets), bound);
  }

  method KarmarkarKarp(w: seq<int>, k: nat) returns (parts: seq<seq<nat>>)
    requires 0 < k <= |w| && |w| % k == 0
    ensures EqualPartition(parts, k, |w|)
    ensures Spread(PartitionLoads(w, parts)) <= ChunkSpread(SortedPairs(w, |w|), k)
  {
    ghost var chunks := ExactDivision(|w|, k);
    parts := MergeStates(w, k, chunks);
  }

  method MergeStates(w: seq<int>, k: nat, ghost chunks: nat) returns (parts: seq<seq<nat>>)
    requires 0 < k <= |w| && |w| == chunks * k
    ensures EqualPartition(parts, k, |w|)
    ensures Spread(PartitionLoads(w, parts)) <= ChunkSpread(SortedPairs(w, |w|), k)
  {
    hide HeapOf;
    hide Range;
    hide EqualPartition;
    hide Spread;
    hide ChunkSpread;
    hide SortedPairs;
    hide PartitionLoads;
    hide ComesFirst;
    hide Mirrors;
    var states, c := InitialStates(w, k, chunks);
    ghost var bound := ChunkSpread(SortedPairs(w, |w|), k);
    while |states| > 1
      invariant states != [] && Mirrors(states, c) && fresh(states)
      invariant HeapOf(w, k, bound, c, multiset(Range(|w|)))
      decreases |states|
    {
      NonEmptyStates(w, k, bound, c, multiset(Range(|w|)));
      var first, rest, at := PopFirst(states, c);
      ghost var c1 := RemoveAt(c, at);
      var second, rest', at' := PopFirst(rest, c1);
      MergeRound(w, k, bound, c, at, at', multiset(Range(|w|)));
      RemovedMembers(rest, at', first);
      first.Merge(second);
      MirrorsAppend(rest', RemoveAt(c1, at'), first);
      states, c := rest' + [first], RemoveAt(c1, at') + [first.sets];
    }
    OneMirrored(states, c);
    FinalState(w, k, bound, states[0].sets);
    parts := Partitions(states[0].sets);
  }

  // ---------------------------------------------------------------- refinement by swapping

  /** Python tuple order on (largest load, largest load - smallest load). */
  predicate ScoreLess(a: (int, int), b: (int, int)) {
    a.0 < b.0 || (a.0 == b.0 && a.1 < b.1)
  }

  function Score(loads: seq<int>): (int, int)
    requires loads != []
  {
    (MaxOf(loads), MaxOf(loads) - MinOf(loads))
  }

  datatype Swap = Swap(left: nat, right: nat, leftPos: nat, rightPos: nat)

  predicate IsSwap(parts: seq<seq<nat>>, s: Swap) {
    s.left < s.right < |parts| && s.leftPos < |parts[s.left]| && s.rightPos < |parts[s.right]|
  }

  function SwapLoads(w: seq<int>, parts: seq<seq<nat>>, loads: seq<int>, s: Swap): (r: seq<int>)
    requires PartsBelow(parts, |w|) && |loads| == |parts| && IsSwap(parts, s)
    ensures |r| == |loads|
  {
    var leftIdx, rightIdx := parts[s.left][s.leftPos], parts[s.right][s.rightPos];
    loads[s.left := loads[s.left] - w[leftIdx] + w[rightIdx]][s.right := loads[s.right] - w[rightIdx] + w[leftIdx]]
  }

  function ApplySwap(parts: seq<seq<nat>>, s: Swap): seq<seq<nat>>
    requires IsSwap(parts, s)
  {
    var leftIdx, rightIdx := parts[s.left][s.leftPos], parts[s.right][s.rightPos];
    parts[s.left := parts[s.left][s.leftPos := rightIdx]][s.right := parts[s.right][s.rightPos := leftIdx]]
  }

  predicate Improves(w: seq<int>, parts: seq<seq<nat>>, loads: seq<int>, s: Swap, score: (int, int))
    requires PartsBelow(parts, |w|) && |loads| == |parts|
  {
    IsSwap(parts, s) && ScoreLess(Score(SwapLoads(w, parts, loads, s)), score)
  }

  /** The order in which the four nested loops visit the candidate swaps. */
  predicate Visited(s: Swap, left: nat, right: nat, leftPos: nat, rightPos: nat) {
    s.left < left || (s.left == left && (s.right < right || (s.right == right &&
      (s.leftPos < leftPos || (s.leftPos == leftPos && s.rightPos < rightPos)))))
  }

  datatype Best = NoSwap | BestSwap(swap: Swap)

  predicate BestSoFar(w: seq<int>, parts: seq<seq<nat>>, loads: seq<int>, best: Best, score: (int, int))
    requires PartsBelow(parts, |w|) && |loads| == |parts| && loads != []
  {
    match best
    case NoSwap => score == Score(loads)
    case BestSwap(s) => IsSwap(parts, s) && score == Score(SwapLoads(w, parts, loads, s)) && ScoreLess(score, Score(loads))
  }

  ghost predicate NoneBetter(w: seq<int>, parts: seq<seq<nat>>, loads: seq<int>, score: (int, int), left: nat, right: nat, leftPos: nat, rightPos: nat)
    requires PartsBelow(parts, |w|) && |loads| == |parts|
  {
    forall s: Swap :: Visited(s, left, right, leftPos, rightPos) ==> !Improves(w, parts, loads, s, score)
  }

  lemma ScoreLessTransitive(w: seq<int>, parts: seq<seq<nat>>, loads: seq<int>, s: Swap, score: (int, int), better: (int, int))
    requires PartsBelow(parts, |w|) && |loads| == |parts| && ScoreLess(better, score)
    requires !Improves(w, parts, loads, s, score)
    ensures !Improves(w, parts, loads, s, better)
  {}

  /** Visiting one more candidate, whether or not it becomes the best one. */
  lemma VisitCandidate(w: seq<int>, parts: seq<seq<nat>>, loads: seq<int>, score: (int, int), after: (int, int), c: Swap)
    requires PartsBelow(parts, |w|) && |loads| == |parts| && IsSwap(parts, c)
    requires NoneBetter(w, parts, loads, score, c.left, c.right, c.leftPos, c.rightPos)
    requires after == score || ScoreLess(after, score)
    requires !Improves(w, parts, loads, c, after)
    ensures NoneBetter(w, parts, loads, after, c.left, c.right, c.leftPos, c.rightPos + 1)
  {
    forall s: Swap | Visited(s, c.left, c.right, c.leftPos, c.rightPos + 1) ensures !Improves(w, parts, loads, s, after) {
      if s != c {
        assert Visited(s, c.left, c.right, c.leftPos, c.rightPos);
        if ScoreLess(after, score) { ScoreLessTransitive(w, parts, loads, s, score, after); }
      }
    }
  }

  /** Leaving the innermost loop, the one around it, and the one around that. */
  lemma LoopsEnd(w: seq<int>, parts: seq<seq<nat>>, loads: seq<int>, score: (int, int), left: nat, right: nat, leftPos: nat)
    requires PartsBelow(parts, |w|) && |loads| == |parts| && left < |parts|
    ensures right < |parts| && NoneBetter(w, parts, loads, score, left, right, leftPos, |parts[right]|) ==> NoneBetter(w, parts, loads, score, left, right, leftPos + 1, 0)
    ensures right < |parts| && NoneBetter(w, parts, loads, score, left, right, |parts[left]|, 0) ==> NoneBetter(w, parts, loads, score, left, right + 1, 0, 0)
    ensures NoneBetter(w, parts, loads, score, left, |parts|, 0, 0) ==> NoneBetter(w, parts, loads, score, left + 1, 0, 0, 0)
    ensures NoneBetter(w, parts, loads, score, left, 0, 0, 0) ==> NoneBetter(w, parts, loads, score, left, left + 1, 0, 0)
  {
    hide Score;
    hide SwapLoads;
  }

  method FindBestSwap(w: seq<int>, parts: seq<seq<nat>>, loads: seq<int>) returns (best: Best)
    requires PartsBelow(parts, |w|) && |loads| == |parts| && loads != []
    ensures best.NoSwap? ==> forall s: Swap :: !Improves(w, parts, loads, s, Score(loads))
    ensures best.BestSwap? ==> Improves(w, parts, loads, best.swap, Score(loads))
    ensures best.BestSwap? ==> forall s: Swap :: !Improves(w, parts, loads, s, Score(SwapLoads(w, parts, loads, best.swap)))
  {
    hide Score;
    hide SwapLoads;
    hide NoneBetter;
    best := NoSwap;
    var bestScore := Score(loads);
    var k := |parts|;
    NothingVisited(w, parts, loads, bestScore);
    for left := 0 to k
      invariant BestSoFar(w, parts, loads, best, bestScore)
      invariant NoneBetter(w, parts, loads, bestScore, left, 0, 0, 0)
    {
      LoopsEnd(w, parts, loads, bestScore, left, 0, 0);
      for right := left + 1 to k
        invariant BestSoFar(w, parts, loads, best, bestScore)
        invariant NoneBetter(w, parts, loads, bestScore, left, right, 0, 0)
      {
        for leftPos := 0 to |parts[left]|
          invariant BestSoFar(w, parts, loads, best, bestScore)
          invariant NoneBetter(w, parts, loads, bestScore, left, right, leftPos, 0)
        {
          for rightPos := 0 to |parts[right]|
            invariant BestSoFar(w, parts, loads, best, bestScore)
            invariant NoneBetter(w, parts, loads, bestScore, left, right, leftPos, rightPos)
          {
            var candidate := Swap(left, right, leftPos, rightPos);
            var score := Score(SwapLoads(w, parts, loads, candidate));
            ghost var before := bestScore;
            if ScoreLess(score, bestScore) {
              best, bestScore := BestSwap(candidate), score;
            }
            VisitCandidate(w, parts, loads, before, bestScore, candidate);
          }
          LoopsEnd(w, parts, loads, bestScore, left, right, leftPos);
        }
        LoopsEnd(w, parts, loads, bestScore, left, right, 0);
      }
      LoopsEnd(w, parts, loads, bestScore, left, 0, 0);
    }
    AllVisited(w, parts, loads, bestScore);
  }

  lemma NothingVisited(w: seq<int>, parts: seq<seq<nat>>, loads: seq<int>, score: (int, int))
    requires PartsBelow(parts, |w|) && |loads| == |parts|
    ensures NoneBetter(w, parts, loads, score, 0, 0, 0, 0)
  {}

  lemma AllVisited(w: seq<int>, parts: seq<seq<nat>>, loads: seq<int>, score: (int, int))
    requires PartsBelow(parts, |w|) && |loads| == |parts|
    requires NoneBetter(w, parts, loads, score, |parts|, 0, 0, 0)
    ensures forall s: Swap :: !Improves(w, parts, loads, s, score)
  {
    forall s: Swap ensures !Improves(w, parts, loads, s, score) {
      if IsSwap(parts, s) { assert Visited(s, |parts|, 0, 0, 0); }
    }
  }

  /** Every refining swap strictly lowers the spread, even when it is chosen for its lower maximum. */
  lemma SwapLowersSpread(loads: seq<int>, left: nat, right: nat, d: int)
    requires left < |loads| && right < |loads| && left != right
    requires ScoreLess(Score(loads[left := loads[left] - d][right := loads[right] + d]), Score(loads))
    ensures Spread(loads[left := loads[left] - d][right := loads[right] + d]) < Spread(loads)
  {
    var after := loads[left := loads[left] - d][right := loads[right] + d];
    var top :| 0 <= top < |loads| && loads[top] == MaxOf(loads);
    var low :| 0 <= low < |after| && after[low] == MinOf(after);
    assert after[left] <= MaxOf(after) && after[right] <= MaxOf(after) && after[top] <= MaxOf(after);
    assert MinOf(loads) <= loads[left] && MinOf(loads) <= loads[right] && MinOf(loads) <= loads[low];
  }

  lemma SwapKeepsLoads(w: seq<int>, parts: seq<seq<nat>>, s: Swap)
    requires PartsBelow(parts, |w|) && IsSwap(parts, s)
    ensures PartsBelow(ApplySwap(parts, s), |w|)
    ensures PartitionLoads(w, ApplySwap(parts, s)) == SwapLoads(w, parts, PartitionLoads(w, parts), s)
  {
    var leftIdx, rightIdx := parts[s.left][s.leftPos], parts[s.right][s.rightPos];
    LoadUpdate(w, parts[s.left], s.leftPos, rightIdx);
    LoadUpdate(w, parts[s.right], s.rightPos, leftIdx);
    var after := ApplySwap(parts, s);
    assert after[s.left] == parts[s.left][s.leftPos := rightIdx] && after[s.right] == parts[s.right][s.rightPos := leftIdx];
    assert forall g :: 0 <= g < |parts| && g != s.left && g != s.right ==> after[g] == parts[g];
    assert PartsBelow(after, |w|);
    var loads := PartitionLoads(w, after);
    var expected := SwapLoads(w, parts, PartitionLoads(w, parts), s);
    forall g | 0 <= g < |parts| ensures loads[g] == expected[g] {}
  }

  lemma SwapKeepsBag(parts: seq<seq<nat>>, s: Swap)
    requires IsSwap(parts, s)
    ensures Bag(ApplySwap(parts, s)) == Bag(parts)
  {
    var leftIdx, rightIdx := parts[s.left][s.leftPos], parts[s.right][s.rightPos];
    var newLeft, newRight := parts[s.left][s.leftPos := rightIdx], parts[s.right][s.rightPos := leftIdx];
    var halfway := parts[s.left := newLeft];
    UpdateBag(parts[s.left], s.leftPos, rightIdx);
    UpdateBag(parts[s.right], s.rightPos, leftIdx);
    BagUpdate(parts, s.left, newLeft);
    BagUpdate(halfway, s.right, newRight);
    BagExchange(Bag(parts), Bag(halfway), Bag(halfway[s.right := newRight]),
                multiset(parts[s.left]), multiset(newLeft), multiset(parts[s.right]), multiset(newRight),
                multiset{leftIdx}, multiset{rightIdx});
  }

  lemma BagExchange(b0: multiset<nat>, b1: multiset<nat>, b2: multiset<nat>,
                    l: multiset<nat>, l': multiset<nat>, r: multiset<nat>, r': multiset<nat>,
                    x: multiset<nat>, y: multiset<nat>)
    requires b1 + l == b0 + l' && b2 + r == b1 + r'
    requires l' + x == l + y && r' + y == r + x
    ensures b2 == b0
  {
    forall e: nat ensures b2[e] == b0[e] {
      assert (b1 + l)[e] == (b0 + l')[e] && (b2 + r)[e] == (b1 + r')[e];
      assert (l' + x)[e] == (l + y)[e] && (r' + y)[e] == (r + x)[e];
    }
  }

  lemma SwapKeepsPartition(w: seq<int>, parts: seq<seq<nat>>, k: nat, s: Swap)
    requires EqualPartition(parts, k, |w|) && IsSwap(parts, s)
    ensures EqualPartition(ApplySwap(parts, s), k, |w|)
    ensures PartitionLoads(w, ApplySwap(parts, s)) == SwapLoads(w, parts, PartitionLoads(w, parts), s)
  {
    hide Range;
    SwapKeepsLoads(w, parts, s);
    SwapKeepsBag(parts, s);
    forall g | 0 <= g < |parts| ensures |ApplySwap(parts, s)[g]| == |parts[g]| {}
  }

  lemma UpdateBag(a: seq<nat>, p: nat, x: nat)
    requires p < |a|
    ensures multiset(a[p := x]) + multiset{a[p]} == multiset(a) + multiset{x}
  {}

  lemma RefineStep(w: seq<int>, parts: seq<seq<nat>>, k: nat, s: Swap)
    requires parts != [] && EqualPartition(parts, k, |w|) && PartsBelow(parts, |w|)
    requires Improves(w, parts, PartitionLoads(w, parts), s, Score(PartitionLoads(w, parts)))
    ensures IsSwap(parts, s) && |ApplySwap(parts, s)| == |parts| && PartsBelow(ApplySwap(parts, s), |w|)
    ensures EqualPartition(ApplySwap(parts, s), k, |w|)
    ensures PartitionLoads(w, ApplySwap(parts, s)) == SwapLoads(w, parts, PartitionLoads(w, parts), s)
    ensures Spread(PartitionLoads(w, ApplySwap(parts, s))) < Spread(PartitionLoads(w, parts))
  {
    hide EqualPartition;
    hide Spread;
    hide Score;
    SwapKeepsPartition(w, parts, k, s);
    SwapKeepsLoads(w, parts, s);
    SwapLowersSpread(PartitionLoads(w, parts), s.left, s.right, w[parts[s.left][s.leftPos]] - w[parts[s.right][s.rightPos]]);
  }

  method RefineBySwapping(w: seq<int>, initial: seq<seq<nat>>) returns (parts: seq<seq<nat>>)
    requires initial != [] && EqualPartition(initial, |initial|, |w|)
    ensures EqualPartition(parts, |initial|, |w|)
    ensures Spread(PartitionLoads(w, parts)) <= Spread(PartitionLoads(w, initial))
    ensures forall s: Swap :: !Improves(w, parts, PartitionLoads(w, parts), s, Score(PartitionLoads(w, parts)))
  {
    assert PartsBelow(initial, |w|);
    hide EqualPartition;
    hide Score;
    hide Spread;
    hide SwapLoads;
    hide ApplySwap;
    hide Improves;
    parts := initial;
    var loads := PartitionLoads(w, parts);
    while true
      invariant |parts| == |initial| && PartsBelow(parts, |w|) && EqualPartition(parts, |initial|, |w|)
      invariant loads == PartitionLoads(w, parts)
      invariant Spread(loads) <= Spread(PartitionLoads(w, initial))
      decreases Spread(loads)
    {
      var best := FindBestSwap(w, parts, loads);
      if best.NoSwap? {
        return;
      }
      var s := best.swap;
      RefineStep(w, parts, |initial|, s);
      loads := SwapLoads(w, parts, loads, s);
      parts := ApplySwap(parts, s);
    }
  }

  // ---------------------------------------------------------------- the whole partitioner

  /** The heaviest group exceeds the average by at most (k - 1) / k of the spread. */
  lemma {:induction false} MaxLoadBound(loads: seq<int>)
    requires loads != []
    ensures |loads| * MaxOf(loads) <= Sum(loads) + (|loads| - 1) * Spread(loads)
  {
    var top :| 0 <= top < |loads| && loads[top] == MaxOf(loads);
    SumUpdate(loads, top, MinOf(loads));
    SumAtLeast(loads[top := MinOf(loads)], MinOf(loads));
    MaxLoadArithmetic(|loads|, MaxOf(loads), MinOf(loads), Sum(loads));
  }

  lemma MaxLoadArithmetic(n: nat, m: int, l: int, total: int)
    requires total - m + l >= n * l
    ensures n * m <= total + (n - 1) * (m - l)
  {
    assert (n - 1) * (m - l) == n * m - n * l - m + l;
  }

  lemma {:induction false} LoadRemoved(w: seq<int>, a: seq<nat>, p: nat)
    requires IndicesBelow(a, |w|) && p < |a|
    ensures IndicesBelow(a[..p] + a[p + 1..], |w|)
    ensures Load(w, a) == w[a[p]] + Load(w, a[..p] + a[p + 1..])
    ensures multiset(a) == multiset{a[p]} + multiset(a[..p] + a[p + 1..])
  {
    assert a == a[..p] + [a[p]] + a[p + 1..];
    LoadConcat(w, a[..p] + [a[p]], a[p + 1..]);
    LoadConcat(w, a[..p], [a[p]]);
    LoadConcat(w, a[..p], a[p + 1..]);
    assert Load(w, [a[p]]) == w[a[p]] + Load(w, [a[p]][1..]);
  }

  lemma Position(b: seq<nat>, x: nat, bag: multiset<nat>) returns (p: nat)
    requires x in bag && bag == multiset(b)
    ensures p < |b| && b[p] == x
  {
    p :| 0 <= p < |b| && b[p] == x;
  }

  lemma SameRest(x: nat, a: multiset<nat>, b: multiset<nat>)
    requires multiset{x} + a == multiset{x} + b
    ensures a == b
  {
    assert a == multiset{x} + a - multiset{x};
    assert b == multiset{x} + b - multiset{x};
  }

  /** A load depends only on which indices there are. */
  lemma {:induction false} LoadOfBag(w: seq<int>, a: seq<nat>, b: seq<nat>)
    requires IndicesBelow(a, |w|) && IndicesBelow(b, |w|) && multiset(a) == multiset(b)
    ensures Load(w, a) == Load(w, b)
  {
    if a == [] {
      assert |multiset(b)| == 0;
    } else {
      var p := Position(b, a[0], multiset(a));
      var rest := b[..p] + b[p + 1..];
      LoadRemoved(w, b, p);
      assert a == [a[0]] + a[1..];
      SameRest(a[0], multiset(a[1..]), multiset(rest));
      LoadOfBag(w, a[1..], rest);
    }
  }

  lemma {:induction false} LoadsFlattened(w: seq<int>, parts: seq<seq<nat>>)
    requires PartsBelow(parts, |w|)
    ensures IndicesBelow(Flatten(parts), |w|) && multiset(Flatten(parts)) == Bag(parts)
    ensures Sum(PartitionLoads(w, parts)) == Load(w, Flatten(parts))
  {
    if parts != [] {
      LoadsFlattened(w, parts[1..]);
      LoadConcat(w, parts[0], Flatten(parts[1..]));
      assert PartitionLoads(w, parts)[1..] == PartitionLoads(w, parts[1..]);
    }
  }

  lemma {:induction false} SumAppend(s: seq<int>, x: int)
    ensures Sum(s + [x]) == Sum(s) + x
  {
    if s == [] {
      assert s + [x] == [x] && Sum([x]) == x + Sum([x][1..]);
    } else {
      assert (s + [x])[1..] == s[1..] + [x];
      SumAppend(s[1..], x);
    }
  }

  lemma {:induction false} LoadOfRange(w: seq<int>, n: nat)
    requires n <= |w|
    ensures Load(w, Range(n)) == Sum(w[..n])
  {
    if n > 0 {
      LoadOfRange(w, n - 1);
      assert Range(n) == Range(n - 1) + [n - 1];
      LoadConcat(w, Range(n - 1), [n - 1]);
      assert Load(w, [n - 1]) == w[n - 1] + Load(w, [n - 1][1..]);
      assert w[..n] == w[..n - 1] + [w[n - 1]];
      SumAppend(w[..n - 1], w[n - 1]);
    }
  }

  /** The groups share out the whole weight. */
  lemma LoadsTotal(w: seq<int>, parts: seq<seq<nat>>, k: nat)
    requires EqualPartition(parts, k, |w|)
    ensures PartsBelow(parts, |w|) && Sum(PartitionLoads(w, parts)) == Sum(w)
  {
    LoadsFlattened(w, parts);
    LoadOfBag(w, Flatten(parts), Range(|w|));
    LoadOfRange(w, |w|);
    assert w[..|w|] == w;
  }

  method BalancedPartition(w: seq<int>, k: nat) returns (parts: seq<seq<nat>>)
    requires 0 < k <= |w| && |w| % k == 0
    ensures EqualPartition(parts, k, |w|)
    ensures Spread(PartitionLoads(w, parts)) <= ChunkSpread(SortedPairs(w, |w|), k) <= MaxOf(w) - MinOf(w)
    ensures Sum(PartitionLoads(w, parts)) == Sum(w)
    ensures k * MaxOf(PartitionLoads(w, parts)) <= Sum(w) + (k - 1) * ChunkSpread(SortedPairs(w, |w|), k)
    ensures forall s: Swap :: !Improves(w, parts, PartitionLoads(w, parts), s, Score(PartitionLoads(w, parts)))
  {
    parts := KarmarkarKarp(w, k);
    parts := RefineBySwapping(w, parts);
    var sorted := SortedPairs(w, |w|);
    SortedPairsSorted(w, |w|);
    ChunkSpreadBound(sorted, k);
    LoadsTotal(w, parts, k);
    MaxLoadBound(PartitionLoads(w, parts));
    MulMonotone(k - 1, Spread(PartitionLoads(w, parts)), ChunkSpread(sorted, k));
  }
}
