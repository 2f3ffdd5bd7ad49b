/** The orders the partitioner works in, and what it leaves unimproved, in weights and loads alone. */
module BalanceRules {
  import opened Sequences
  import opened Balance

  // ---------------------------------------------------------------- orders

  /** `a` is a proper prefix of `b`, or less where they first differ. */
  ghost predicate Lexicographic(a: seq<nat>, b: seq<nat>) {
    exists p: nat :: p <= |a| && p <= |b| && a[..p] == b[..p] && if p < |a| then p < |b| && a[p] < b[p] else p < |b|
  }

  lemma {:induction false} ListLessIs(a: seq<nat>, b: seq<nat>)
    ensures ListLess(a, b) <==> Lexicographic(a, b)
  {
    if a == [] || b == [] {
      if b != [] { assert a[..0] == b[..0]; }
    } else if a[0] != b[0] {
      if a[0] < b[0] { assert a[..0] == b[..0]; }
      if Lexicographic(a, b) {
        var p: nat :| p <= |a| && p <= |b| && a[..p] == b[..p] && if p < |a| then p < |b| && a[p] < b[p] else p < |b|;
        if p > 0 { assert a[0] == a[..p][0] == b[..p][0]; }
      }
    } else {
      ListLessIs(a[1..], b[1..]);
      LexicographicTail(a, b);
    }
  }

  lemma LexicographicTail(a: seq<nat>, b: seq<nat>)
    requires a != [] && b != [] && a[0] == b[0]
    ensures Lexicographic(a, b) <==> Lexicographic(a[1..], b[1..])
  {
    if Lexicographic(a, b) {
      var p: nat :| p <= |a| && p <= |b| && a[..p] == b[..p] && if p < |a| then p < |b| && a[p] < b[p] else p < |b|;
      assert a[1..][..p - 1] == a[..p][1..] && b[1..][..p - 1] == b[..p][1..];
    }
    if Lexicographic(a[1..], b[1..]) {
      var p: nat :| p <= |a[1..]| && p <= |b[1..]| && a[1..][..p] == b[1..][..p]
                    && if p < |a[1..]| then p < |b[1..]| && a[1..][p] < b[1..][p] else p < |b[1..]|;
      assert a[..p + 1] == [a[0]] + a[1..][..p] && b[..p + 1] == [b[0]] + b[1..][..p];
    }
  }

  predicate PairsOrdered(s: seq<Weighted>) {
    forall i, j :: 0 <= i < j < |s| ==> s[i].weight < s[j].weight || (s[i].weight == s[j].weight && s[i].idx <= s[j].idx)
  }

  lemma {:induction false} InsertPairOrdered(p: Weighted, s: seq<Weighted>)
    requires PairsOrdered(s)
    ensures PairsOrdered(InsertPair(p, s))
  {
    if s != [] && !PairLess(p, s[0]) {
      InsertPairOrdered(p, s[1..]);
      var rest := InsertPair(p, s[1..]);
      forall j | 0 <= j < |rest| ensures s[0].weight < rest[j].weight || (s[0].weight == rest[j].weight && s[0].idx <= rest[j].idx) {
        if rest[j] != p {
          var k :| 0 <= k < |s[1..]| && s[1..][k] == rest[j];
          assert s[k + 1] == rest[j];
        }
      }
    }
  }

  /** The weights are dealt to the initial states in ascending order, equal ones by index. */
  lemma {:induction false} PairsSorted(w: seq<int>, n: nat)
    requires n <= |w|
    ensures PairsOrdered(SortedPairs(w, n))
  {
    hide PairsOrdered;
    if n > 0 {
      PairsSorted(w, n - 1);
      InsertPairOrdered(Weighted(w[n - 1], n - 1), SortedPairs(w, n - 1));
    } else {
      NoPairs();
    }
  }

  lemma NoPairs()
    ensures PairsOrdered([])
  {
  }

  /** Heavier first, and of equally heavy sets the one with the later index list. */
  predicate SetsOrdered(s: seq<WeightedSet>) {
    forall i, j :: 0 <= i < j < |s| ==> NoLater(s[i], s[j])
  }

  predicate NoLater(x: WeightedSet, y: WeightedSet) {
    x.total > y.total || (x.total == y.total && !ListLess(x.items, y.items))
  }

  lemma NoLaterChain(x: WeightedSet, y: WeightedSet, z: WeightedSet)
    requires NoLater(x, y) && NoLater(y, z)
    ensures NoLater(x, z)
  {
    if x.total == z.total { NotLessChain(x.items, y.items, z.items); }
  }

  lemma {:induction false} NotLessChain(a: seq<nat>, b: seq<nat>, c: seq<nat>)
    requires !ListLess(a, b) && !ListLess(b, c)
    ensures !ListLess(a, c)
  {
    if a != [] && b != [] && c != [] && a[0] == b[0] == c[0] { NotLessChain(a[1..], b[1..], c[1..]); }
  }

  lemma {:induction false} ListLessTotal(a: seq<nat>, b: seq<nat>)
    ensures !ListLess(a, b) || !ListLess(b, a)
  {
    if a != [] && b != [] && a[0] == b[0] { ListLessTotal(a[1..], b[1..]); }
  }

  lemma {:induction false} InsertSetOrdered(x: WeightedSet, s: seq<WeightedSet>)
    requires SetsOrdered(s)
    ensures SetsOrdered(InsertSet(x, s))
  {
    if s != [] {
      var r := InsertSet(x, s);
      ListLessTotal(s[0].items, x.items);
      hide ListLess;
      if s[0].Less(x) {
        assert NoLater(x, s[0]);
        forall j | 0 < j < |r| ensures NoLater(x, r[j]) {
          if j > 1 { NoLaterChain(x, s[0], s[j - 1]); }
        }
      } else {
        InsertSetOrdered(x, s[1..]);
        var rest := InsertSet(x, s[1..]);
        forall j | 0 <= j < |rest| ensures NoLater(s[0], rest[j]) {
          if rest[j] != x {
            var k :| 0 <= k < |s[1..]| && s[1..][k] == rest[j];
            assert s[k + 1] == rest[j];
          }
        }
      }
      hide NoLater;
    }
  }

  lemma {:induction false} SetsSorted(s: seq<WeightedSet>)
    ensures SetsOrdered(SortSets(s))
  {
    hide SetsOrdered;
    if s != [] {
      SetsSorted(s[1..]);
      InsertSetOrdered(s[0], SortSets(s[1..]));
    } else {
      NoSets();
    }
  }

  lemma NoSets()
    ensures SetsOrdered([])
  {
  }

  /** The popped state has the largest spread, and of those with as much the heaviest first set. */
  lemma FirstHasLargestSpread(states: seq<KKState>, first: KKState, i: nat)
    requires ComesFirst(states, first) && i < |states|
    ensures states[i].sets != [] && first.sets != []
    ensures var a, b := first.sets, states[i].sets;
            var s, t := a[0].total - a[|a| - 1].total, b[0].total - b[|b| - 1].total;
            t < s || (t == s && NoLater(a[0], b[0]))
  {
    assert !states[i].Before(first);
  }

  predicate AscendingNats(s: seq<nat>) {
    forall i, j :: 0 <= i < j < |s| ==> s[i] <= s[j]
  }

  lemma {:induction false} InsertNatAscends(x: nat, s: seq<nat>)
    requires AscendingNats(s)
    ensures AscendingNats(InsertNat(x, s)) && forall i :: 0 <= i < |InsertNat(x, s)| ==> InsertNat(x, s)[i] == x || InsertNat(x, s)[i] in s
  {
    if s != [] && x > s[0] { InsertNatAscends(x, s[1..]); }
  }

  /** Each group lists its indices in ascending order. */
  lemma {:induction false} NatsSorted(s: seq<nat>)
    ensures AscendingNats(SortNats(s))
  {
    if s != [] {
      NatsSorted(s[1..]);
      InsertNatAscends(s[0], SortNats(s[1..]));
    }
  }

  lemma {:induction false} GroupsAscend(sets: seq<WeightedSet>)
    ensures forall g :: 0 <= g < |sets| ==> AscendingNats(Partitions(sets)[g])
  {
    hide AscendingNats;
    if sets != [] {
      GroupsAscend(sets[1..]);
      NatsSorted(sets[0].items);
      forall g | 0 <= g < |sets| ensures AscendingNats(Partitions(sets)[g]) {
        if g > 0 { assert Partitions(sets)[g] == Partitions(sets[1..])[g - 1]; }
      }
    }
  }

  // ---------------------------------------------------------------- the bound

  /** The bound is the spread of some run of `k` consecutive sorted weights, or 0. */
  lemma {:induction false} ChunkAttained(s: seq<Weighted>, k: nat)
    requires k > 0
    ensures ChunkSpread(s, k) == 0 || exists c: nat :: c % k == 0 && c + k <= |s| && ChunkSpread(s, k) == s[c + k - 1].weight - s[c].weight
    decreases |s|
  {
    if |s| >= k {
      ChunkAttained(s[k..], k);
      var here, rest := s[k - 1].weight - s[0].weight, ChunkSpread(s[k..], k);
      if here > rest {
        Multiple(0, k);
        assert 0 % k == 0 && 0 + k <= |s|;
      } else if rest != 0 {
        var c: nat :| c % k == 0 && c + k <= |s[k..]| && rest == s[k..][c + k - 1].weight - s[k..][c].weight;
        Multiple(c, k);
        assert (c + k) % k == 0 && s[k..][c + k - 1] == s[c + k + k - 1] && s[k..][c] == s[c + k];
      }
    }
  }

  lemma Multiple(c: nat, k: nat)
    requires k > 0 && c % k == 0
    ensures (c + k) % k == 0 && 0 % k == 0
  {
    var q := c / k;
    assert c == q * k;
    MulSucc(q, k);
    DivisionUnique(c + k, k, q + 1, 0);
    DivisionUnique(0, k, 0, 0);
  }

  // ---------------------------------------------------------------- what refinement leaves

  /** The load of group `x` once index `p` of group `g` and index `q` of group `h` have changed places. */
  function LoadAfter(w: seq<int>, parts: seq<seq<nat>>, g: nat, p: nat, h: nat, q: nat, x: nat): int
    requires PartsBelow(parts, |w|) && g < h < |parts| && p < |parts[g]| && q < |parts[h]| && x < |parts|
  {
    if x == g then Load(w, parts[g]) - w[parts[g][p]] + w[parts[h][q]]
    else if x == h then Load(w, parts[h]) - w[parts[h][q]] + w[parts[g][p]]
    else Load(w, parts[x])
  }

  /** The swap makes some group heavier than the heaviest now, or leaves the heaviest load and a group as light as the lightest now. */
  ghost predicate NoGain(w: seq<int>, parts: seq<seq<nat>>, g: nat, p: nat, h: nat, q: nat)
    requires PartsBelow(parts, |w|) && g < h < |parts| && p < |parts[g]| && q < |parts[h]|
  {
    var most, least := MaxOf(PartitionLoads(w, parts)), MinOf(PartitionLoads(w, parts));
    || (exists x :: 0 <= x < |parts| && LoadAfter(w, parts, g, p, h, q, x) > most)
    || ((exists x :: 0 <= x < |parts| && LoadAfter(w, parts, g, p, h, q, x) == most)
        && (exists x :: 0 <= x < |parts| && LoadAfter(w, parts, g, p, h, q, x) <= least))
  }

  lemma AfterSwap(w: seq<int>, parts: seq<seq<nat>>, s: Swap)
    requires PartsBelow(parts, |w|) && IsSwap(parts, s)
    ensures forall x :: 0 <= x < |parts| ==>
              SwapLoads(w, parts, PartitionLoads(w, parts), s)[x] == LoadAfter(w, parts, s.left, s.leftPos, s.right, s.rightPos, x)
  {
  }

  lemma NoGainIs(w: seq<int>, parts: seq<seq<nat>>, s: Swap)
    requires parts != [] && PartsBelow(parts, |w|) && IsSwap(parts, s)
    ensures Improves(w, parts, PartitionLoads(w, parts), s, Score(PartitionLoads(w, parts)))
            <==> !NoGain(w, parts, s.left, s.leftPos, s.right, s.rightPos)
  {
    AfterSwap(w, parts, s);
    var loads := PartitionLoads(w, parts);
    var after := SwapLoads(w, parts, loads, s);
    hide SwapLoads;
    hide LoadAfter;
    hide Load;
    var top :| 0 <= top < |after| && after[top] == MaxOf(after);
    var low :| 0 <= low < |after| && after[low] == MinOf(after);
    assert LoadAfter(w, parts, s.left, s.leftPos, s.right, s.rightPos, top) == after[top];
    assert LoadAfter(w, parts, s.left, s.leftPos, s.right, s.rightPos, low) == after[low];
  }

  /** What the partitioner returns cannot be improved by exchanging two indices. */
  lemma SwapsGainNothing(w: seq<int>, parts: seq<seq<nat>>, g: nat, p: nat, h: nat, q: nat)
    requires parts != [] && PartsBelow(parts, |w|) && g < h < |parts| && p < |parts[g]| && q < |parts[h]|
    requires forall s: Swap :: !Improves(w, parts, PartitionLoads(w, parts), s, Score(PartitionLoads(w, parts)))
    ensures NoGain(w, parts, g, p, h, q)
  {
    hide NoGain;
    NoGainIs(w, parts, Swap(g, h, p, q));
    hide Improves;
  }
}
