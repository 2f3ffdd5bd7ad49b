/** Padding, dummy batches and the grid of micro batches sent to the data ranks. */
module Distribution {
  import opened Wrappers
  import opened Sequences
  import opened MicroBatches
  import opened Materialization
  import opened Packing
  import opened Preparation
  import opened SampleRecords
  import opened Balance

  // ---------------------------------------------------------------- padding one micro batch

  function PaddingSize(n: nat, multiple: nat): (p: nat)
    requires multiple > 0
    ensures p < multiple
  {
    (multiple - n % multiple) % multiple
  }

  /** The padded length is a multiple of the granularity. */
  lemma PaddingDivides(n: nat, m: nat)
    requires m > 0
    ensures (n + PaddingSize(n, m)) % m == 0
  {
    var r := n % m;
    if r == 0 {
      DivisionUnique(m, m, 1, 0);
    } else {
      DivisionUnique(m - r, m, 0, m - r);
      MulSucc(n / m, m);
      DivisionUnique(n + (m - r), m, n / m + 1, 0);
    }
  }

  function AddToLast(s: seq<nat>, n: nat): (r: seq<nat>)
    requires s != []
    ensures |r| == |s| && r[..|s| - 1] == s[..|s| - 1] && r[|s| - 1] == s[|s| - 1] + n
  {
    s[|s| - 1 := s[|s| - 1] + n]
  }

  function ZeroRow(layers: nat, topk: nat): Row { Filled<nat>(0, layers * topk) }

  function PadRouted(r: RoutedExperts, n: nat): RoutedExperts {
    r.(rows := r.rows + Filled(ZeroRow(r.layers, r.topk), n))
  }

  predicate Paddable(m: MicroBatch) {
    m.sequenceLengths != [] && m.seqLens != [] && (m.loraNumTokens.Some? ==> m.loraNumTokens.value != [])
  }

  function Padded(m: MicroBatch, p: nat): MicroBatch
    requires Paddable(m)
  {
    m.(inputIds := m.inputIds + Filled(1, p),
       advantages := m.advantages + Filled(0.0, p),
       lossMask := m.lossMask + Filled(false, p),
       positionIds := m.positionIds + Range(p),
       sequenceLengths := AddToLast(m.sequenceLengths, p),
       seqLens := AddToLast(m.seqLens, p),
       logprobs := m.logprobs + Filled(0.0, p),
       temperatures := m.temperatures + Filled(1.0, p),
       refLogprobs := Extend(m.refLogprobs, Filled(0.0, p)),
       rlWeights := Extend(m.rlWeights, Filled(0.0, p)),
       ceWeights := Extend(m.ceWeights, Filled(0.0, p)),
       refKlWeights := Extend(m.refKlWeights, Filled(0.0, p)),
       loraNumTokens := if m.loraNumTokens.Some? then Some(AddToLast(m.loraNumTokens.value, p)) else None,
       mmTypeIds := Extend(m.mmTypeIds, Filled<nat>(0, p)),
       routedExperts := if m.routedExperts.Some? then Some(PadRouted(m.routedExperts.value, p)) else None,
       envNames := m.envNames + Filled("", p))
  }

  predicate CanPad(m: MicroBatch, multiple: nat)
    requires multiple > 0
  {
    PaddingSize(Len(m), multiple) > 0 ==> Paddable(m)
  }

  function PadMicroBatch(m: MicroBatch, multiple: nat): MicroBatch
    requires multiple > 0 && CanPad(m, multiple)
  {
    var p := PaddingSize(Len(m), multiple);
    if multiple > 1 && p > 0 then Padded(m, p) else m
  }

  lemma SumNatAddToLast(s: seq<nat>, n: nat)
    requires s != []
    ensures SumNat(AddToLast(s, n)) == SumNat(s) + n
  {
    SumNatUpdate(s, |s| - 1, s[|s| - 1] + n);
  }

  lemma PaddedAligned(m: MicroBatch, p: nat)
    requires Paddable(m) && Aligned(m)
    ensures Aligned(Padded(m, p)) && Len(Padded(m, p)) == Len(m) + p
  {
    SumNatAddToLast(m.sequenceLengths, p);
    SumNatAddToLast(m.seqLens, p);
  }

  /** Padding appends tokens that no loss component reads, and leaves every other record as it was. */
  lemma PaddedRecords(m: MicroBatch, p: nat)
    requires Paddable(m) && Aligned(m)
    ensures Aligned(Padded(m, p))
    ensures Records(Padded(m, p))[..Len(m)] == Records(m)
    ensures forall i :: Len(m) <= i < Len(m) + p ==> !Trains(Records(Padded(m, p))[i])
  {
    PaddedAligned(m, p);
    PaddedPrefix(m, p);
    PaddedSuffix(m, p);
  }

  lemma PaddedReads(m: MicroBatch, p: nat, i: nat)
    requires Paddable(m) && Aligned(m) && Aligned(Padded(m, p)) && i < Len(m)
    ensures var q := Padded(m, p);
            && RlOf(q)[i] == RlOf(m)[i] && CeOf(q)[i] == CeOf(m)[i] && RefKlOf(q)[i] == RefKlOf(m)[i]
            && RefLogprobsOf(q)[i] == RefLogprobsOf(m)[i] && TypeIdsOf(q)[i] == TypeIdsOf(m)[i]
  {
  }

  lemma PaddedPrefix(m: MicroBatch, p: nat)
    requires Paddable(m) && Aligned(m) && Aligned(Padded(m, p))
    ensures Records(Padded(m, p))[..Len(m)] == Records(m)
  {
    hide RlOf;
    hide CeOf;
    hide RefKlOf;
    hide RefLogprobsOf;
    hide TypeIdsOf;
    var q := Padded(m, p);
    forall i | 0 <= i < Len(m) ensures Records(q)[i] == Records(m)[i] {
      PaddedReads(m, p, i);
    }
  }

  lemma PaddedSuffix(m: MicroBatch, p: nat)
    requires Paddable(m) && Aligned(m) && Aligned(Padded(m, p))
    ensures forall i :: Len(m) <= i < Len(m) + p ==> !Trains(Records(Padded(m, p))[i])
  {
    var q := Padded(m, p);
    forall i | Len(m) <= i < Len(m) + p ensures !Trains(Records(q)[i]) {
      assert CeOf(q)[i] == 0.0 && RefKlOf(q)[i] == 0.0 && !q.lossMask[i];
    }
  }

  lemma PaddedTrained(m: MicroBatch, p: nat)
    requires Paddable(m) && Aligned(m)
    ensures Aligned(Padded(m, p)) && Trained(Padded(m, p)) == Trained(m)
  {
    PaddedRecords(m, p);
    var records := Records(Padded(m, p));
    assert records == records[..Len(m)] + records[Len(m)..];
    TrainedConcat(records[..Len(m)], records[Len(m)..]);
    NoneTrained(records[Len(m)..]);
  }

  /** Padding tokens go to the last LoRA, so the counts still add up to the padded length. */
  lemma PaddedLoraCounts(m: MicroBatch, p: nat)
    requires Paddable(m) && m.loraNumTokens.Some? && SumNat(m.loraNumTokens.value) == Len(m)
    ensures SumNat(Padded(m, p).loraNumTokens.value) == Len(Padded(m, p))
  {
    SumNatAddToLast(m.loraNumTokens.value, p);
  }

  // ---------------------------------------------------------------- dummy batches

  function DummyBatch(source: MicroBatch): MicroBatch {
    source.(advantages := Filled(0.0, Len(source)), lossMask := Filled(false, Len(source)),
            rlWeights := None, ceWeights := None, refKlWeights := None)
  }

  lemma DummyTrainsNothing(source: MicroBatch)
    requires Aligned(source)
    ensures Aligned(DummyBatch(source)) && Trained(DummyBatch(source)) == multiset{}
    ensures IsMultimodal(DummyBatch(source)) == IsMultimodal(source)
  {
    NoneTrained(Records(DummyBatch(source)));
  }

  // ---------------------------------------------------------------- bags of trained tokens over collections

  function TrainedOf(m: MicroBatch): multiset<TokenRecord> {
    if Aligned(m) then Trained(m) else multiset{}
  }

  function ItemTrained(item: Item): multiset<TokenRecord> { TrainedOf(item.sample) }

  function SumBags<T>(s: seq<T>, f: T -> multiset<TokenRecord>): multiset<TokenRecord> {
    if s == [] then multiset{} else f(s[0]) + SumBags(s[1..], f)
  }

  lemma {:induction false} SumBagsConcat<T>(a: seq<T>, b: seq<T>, f: T -> multiset<TokenRecord>)
    ensures SumBags(a + b, f) == SumBags(a, f) + SumBags(b, f)
  {
    if a == [] {
      assert a + b == b;
    } else {
      assert (a + b)[1..] == a[1..] + b;
      SumBagsConcat(a[1..], b, f);
    }
  }

  lemma SumBagsAppend<T>(a: seq<T>, x: T, f: T -> multiset<TokenRecord>)
    ensures SumBags(a + [x], f) == SumBags(a, f) + f(x)
  {
    SumBagsConcat(a, [x], f);
    assert SumBags([x], f) == f(x) + SumBags([x][1..], f);
  }

  lemma RemoveOne<T>(a: seq<T>, b: seq<T>, j: nat)
    requires multiset(a) == multiset(b) && a != [] && j < |b| && b[j] == a[0]
    ensures multiset(b[..j] + b[j + 1..]) == multiset(a[1..])
  {
    assert a == [a[0]] + a[1..];
    assert b == b[..j] + [b[j]] + b[j + 1..];
    assert multiset(b) == multiset(b[..j]) + multiset{b[j]} + multiset(b[j + 1..]);
    assert multiset(b[..j] + b[j + 1..]) == multiset(b) - multiset{b[j]};
  }

  /** The total does not depend on the order. */
  lemma {:induction false} SumBagsPermuted<T>(a: seq<T>, b: seq<T>, f: T -> multiset<TokenRecord>)
    requires multiset(a) == multiset(b)
    ensures SumBags(a, f) == SumBags(b, f)
    decreases |a|
  {
    if a == [] {
      assert |multiset(b)| == |b| == 0;
    } else {
      assert a[0] in multiset(b);
      var j :| 0 <= j < |b| && b[j] == a[0];
      var rest := b[..j] + b[j + 1..];
      assert b == b[..j] + ([b[j]] + b[j + 1..]);
      assert multiset(rest) == multiset(a[1..]) by { RemoveOne(a, b, j); }
      SumBagsPermuted(a[1..], rest, f);
      SumBagsConcat(b[..j], [b[j]] + b[j + 1..], f);
      SumBagsConcat(b[..j], b[j + 1..], f);
      assert ([b[j]] + b[j + 1..])[1..] == b[j + 1..];
    }
  }

  lemma {:induction false} FlattenBag<T>(ss: seq<seq<T>>)
    ensures multiset(Flatten(ss)) == Bag(ss)
  {
    if ss != [] { FlattenBag(ss[1..]); }
  }

  function SumNested<T>(ss: seq<seq<T>>, f: T -> multiset<TokenRecord>): multiset<TokenRecord> {
    if ss == [] then multiset{} else SumBags(ss[0], f) + SumNested(ss[1..], f)
  }

  lemma {:induction false} SumFlatten<T>(ss: seq<seq<T>>, f: T -> multiset<TokenRecord>)
    ensures SumNested(ss, f) == SumBags(Flatten(ss), f)
  {
    if ss != [] {
      SumFlatten(ss[1..], f);
      SumBagsConcat(ss[0], Flatten(ss[1..]), f);
    }
  }

  // ---------------------------------------------------------------- from samples to packed batches

  lemma {:induction false} FlatTrained(content: seq<Item>)
    requires ItemsAligned(content)
    ensures multiset(TrainedOnly(FlatRecords(content))) == SumBags(content, ItemTrained)
  {
    if content != [] {
      FlatTrained(content[1..]);
      TrainedConcat(Records(content[0].sample), FlatRecords(content[1..]));
    }
  }

  lemma MaterializedTrained(content: seq<Item>, numLoras: nat)
    requires ItemsAligned(content) && UniformRouting(content) && MaterializeBin(content, numLoras).Success?
    ensures TrainedOf(MaterializeBin(content, numLoras).value) == SumBags(content, ItemTrained)
    ensures Aligned(MaterializeBin(content, numLoras).value)
  {
    PackedRecords(content, numLoras);
    FlatTrained(content);
  }

  predicate AllAligned(batches: seq<MicroBatch>) {
    forall i :: 0 <= i < |batches| ==> Aligned(batches[i])
  }

  predicate BinsReady(bins: seq<seq<Item>>) {
    forall b :: 0 <= b < |bins| ==> ItemsAligned(bins[b]) && UniformRouting(bins[b])
  }

  lemma {:induction false} MaterializedEach(bins: seq<seq<Item>>, numLoras: nat)
    requires MaterializeAll(bins, numLoras).Success?
    ensures |MaterializeAll(bins, numLoras).value| == |bins|
    ensures forall i :: 0 <= i < |bins| ==> MaterializeBin(bins[i], numLoras) == Success(MaterializeAll(bins, numLoras).value[i])
  {
    hide MaterializeBin;
    if bins != [] {
      MaterializedEach(bins[..|bins| - 1], numLoras);
    }
  }

  lemma {:induction false} MaterializedAllTrained(bins: seq<seq<Item>>, numLoras: nat)
    requires BinsReady(bins) && MaterializeAll(bins, numLoras).Success?
    ensures AllAligned(MaterializeAll(bins, numLoras).value)
    ensures SumBags(MaterializeAll(bins, numLoras).value, TrainedOf) == SumNested(bins, ItemTrained)
  {
    hide MaterializeBin;
    hide TrainedOf;
    hide ItemTrained;
    hide Aligned;
    if bins != [] {
      var n := |bins| - 1;
      MaterializedAllTrained(bins[..n], numLoras);
      MaterializedTrained(bins[n], numLoras);
      SumBagsAppend(MaterializeAll(bins[..n], numLoras).value, MaterializeBin(bins[n], numLoras).value, TrainedOf);
      assert bins == bins[..n] + [bins[n]];
      SumNestedAppend(bins[..n], bins[n], ItemTrained);
    }
  }

  lemma {:induction false} SumNestedAppend<T>(ss: seq<seq<T>>, s: seq<T>, f: T -> multiset<TokenRecord>)
    ensures SumNested(ss + [s], f) == SumNested(ss, f) + SumBags(s, f)
  {
    if ss == [] {
      assert ss + [s] == [s];
      assert SumNested([s], f) == SumBags(s, f) + SumNested([s][1..], f);
    } else {
      assert (ss + [s])[1..] == ss[1..] + [s];
      SumNestedAppend(ss[1..], s, f);
    }
  }

  lemma PackedBinsItems(items: seq<Item>, maxSeqLen: nat, workers: nat, c: BinCost)
    requires workers > 0
    ensures Bag(PackedBins(items, maxSeqLen, workers, c)) == multiset(items)
    ensures AllUniform(PackedBins(items, maxSeqLen, workers, c))
  {
    var sorted := StableSort(items, PackBefore);
    var bins := FirstFit(sorted, maxSeqLen);
    SortKeepsItems(items, PackBefore);
    FirstFitKeepsItems(sorted, maxSeqLen);
    FirstFitGood(sorted, maxSeqLen);
    assert AllUniform(bins);
    if workers > 1 {
      ExpandKeepsItems(c, bins, Target(|bins|, workers));
      ExpandKeepsUniform(c, bins, Target(|bins|, workers));
    }
  }

  lemma PackedBinsReady(items: seq<Item>, maxSeqLen: nat, workers: nat, c: BinCost)
    requires workers > 0 && ItemsAligned(items)
    ensures BinsReady(PackedBins(items, maxSeqLen, workers, c))
    ensures SumNested(PackedBins(items, maxSeqLen, workers, c), ItemTrained) == SumBags(items, ItemTrained)
  {
    hide PackedBins;
    PackedBinsItems(items, maxSeqLen, workers, c);
    var bins := PackedBins(items, maxSeqLen, workers, c);
    forall b | 0 <= b < |bins| ensures ItemsAligned(bins[b]) {
      forall i | 0 <= i < |bins[b]| ensures Aligned(bins[b][i].sample) {
        BagMember(bins, b);
        assert bins[b][i] in multiset(bins[b]);
        assert bins[b][i] in multiset(items);
      }
    }
    SumFlatten(bins, ItemTrained);
    FlattenBag(bins);
    SumBagsPermuted(Flatten(bins), items, ItemTrained);
  }

  // ---------------------------------------------------------------- modality groups

  function OfModality(batches: seq<MicroBatch>, multimodal: bool): (r: seq<MicroBatch>)
    ensures forall i :: 0 <= i < |r| ==> IsMultimodal(r[i]) == multimodal && r[i] in batches
  {
    if batches == [] then []
    else if IsMultimodal(batches[0]) == multimodal then [batches[0]] + OfModality(batches[1..], multimodal)
    else OfModality(batches[1..], multimodal)
  }

  lemma {:induction false} ModalitiesCover(batches: seq<MicroBatch>)
    ensures SumBags(OfModality(batches, true), TrainedOf) + SumBags(OfModality(batches, false), TrainedOf) == SumBags(batches, TrainedOf)
    ensures |OfModality(batches, true)| + |OfModality(batches, false)| == |batches|
  {
    hide TrainedOf;
    if batches != [] {
      ModalitiesCover(batches[1..]);
      var group := OfModality(batches, IsMultimodal(batches[0]));
      assert group[1..] == OfModality(batches[1..], IsMultimodal(batches[0]));
    }
  }

  function PadGroup(group: seq<MicroBatch>, workers: nat): (r: seq<MicroBatch>)
    requires workers > 0
    ensures group == [] <==> r == []
  {
    if group == [] then [] else group + Filled(DummyBatch(group[0]), PaddingSize(|group|, workers))
  }

  lemma PadGroupDivides(group: seq<MicroBatch>, workers: nat)
    requires workers > 0
    ensures |PadGroup(group, workers)| % workers == 0
  {
    if group == [] {
      DivisionUnique(0, workers, 0, 0);
    } else {
      PaddingDivides(|group|, workers);
    }
  }

  lemma PadGroupTrained(group: seq<MicroBatch>, workers: nat, multimodal: bool)
    requires workers > 0 && AllAligned(group)
    requires forall i :: 0 <= i < |group| ==> IsMultimodal(group[i]) == multimodal
    ensures AllAligned(PadGroup(group, workers))
    ensures forall i :: 0 <= i < |PadGroup(group, workers)| ==> IsMultimodal(PadGroup(group, workers)[i]) == multimodal
    ensures SumBags(PadGroup(group, workers), TrainedOf) == SumBags(group, TrainedOf)
  {
    if group != [] {
      DummyTrainsNothing(group[0]);
      var dummies := Filled(DummyBatch(group[0]), PaddingSize(|group|, workers));
      SumBagsConcat(group, dummies, TrainedOf);
      NothingSummed(dummies);
    }
  }

  lemma {:induction false} NothingSummed(batches: seq<MicroBatch>)
    requires forall i :: 0 <= i < |batches| ==> TrainedOf(batches[i]) == multiset{}
    ensures SumBags(batches, TrainedOf) == multiset{}
  {
    if batches != [] { NothingSummed(batches[1..]); }
  }

  // ---------------------------------------------------------------- handing a group to the ranks

  function Select(group: seq<MicroBatch>, part: seq<nat>): (r: seq<MicroBatch>)
    requires IndicesBelow(part, |group|)
    ensures |r| == |part| && forall i :: 0 <= i < |part| ==> r[i] == group[part[i]]
  {
    seq(|part|, i requires 0 <= i < |part| => group[part[i]])
  }

  function SelectAll(group: seq<MicroBatch>, parts: seq<seq<nat>>): (r: seq<seq<MicroBatch>>)
    requires PartsBelow(parts, |group|)
    ensures |r| == |parts| && forall g :: 0 <= g < |parts| ==> r[g] == Select(group, parts[g])
  {
    seq(|parts|, g requires 0 <= g < |parts| => Select(group, parts[g]))
  }

  function At(group: seq<MicroBatch>, i: nat): multiset<TokenRecord> {
    if i < |group| then TrainedOf(group[i]) else multiset{}
  }

  lemma {:induction false} SelectTrained(group: seq<MicroBatch>, part: seq<nat>, f: nat -> multiset<TokenRecord>)
    requires IndicesBelow(part, |group|) && forall i: nat :: f(i) == At(group, i)
    ensures SumBags(Select(group, part), TrainedOf) == SumBags(part, f)
  {
    hide TrainedOf;
    if part != [] {
      SelectTrained(group, part[1..], f);
      assert Select(group, part)[1..] == Select(group, part[1..]);
      assert f(part[0]) == At(group, part[0]);
    }
  }

  lemma {:induction false} SelectAllTrained(group: seq<MicroBatch>, parts: seq<seq<nat>>, f: nat -> multiset<TokenRecord>)
    requires PartsBelow(parts, |group|) && forall i: nat :: f(i) == At(group, i)
    ensures SumNested(SelectAll(group, parts), TrainedOf) == SumNested(parts, f)
  {
    hide TrainedOf;
    if parts != [] {
      assert IndicesBelow(parts[0], |group|);
      SelectTrained(group, parts[0], f);
      assert SelectAll(group, parts)[1..] == SelectAll(group, parts[1..]);
      SelectAllTrained(group, parts[1..], f);
    }
  }

  lemma {:induction false} RangeTrained(group: seq<MicroBatch>, n: nat, f: nat -> multiset<TokenRecord>)
    requires n <= |group| && forall i: nat :: f(i) == At(group, i)
    ensures SumBags(Range(n), f) == SumBags(group[..n], TrainedOf)
  {
    hide TrainedOf;
    if n > 0 {
      RangeTrained(group, n - 1, f);
      assert Range(n) == Range(n - 1) + [n - 1];
      SumBagsAppend<nat>(Range(n - 1), n - 1, f);
      assert group[..n] == group[..n - 1] + [group[n - 1]];
      SumBagsAppend(group[..n - 1], group[n - 1], TrainedOf);
      assert f(n - 1) == At(group, n - 1);
    }
  }

  /** Handing out a group by an equal partition neither loses nor repeats a trained token. */
  lemma PartitionTrained(group: seq<MicroBatch>, parts: seq<seq<nat>>, k: nat)
    requires EqualPartition(parts, k, |group|)
    ensures SumNested(SelectAll(group, parts), TrainedOf) == SumBags(group, TrainedOf)
  {
    hide TrainedOf;
    var f := (i: nat) => At(group, i);
    SelectAllTrained(group, parts, f);
    SumFlatten(parts, f);
    FlattenBag(parts);
    SumBagsPermuted(Flatten(parts), Range(|group|), f);
    RangeTrained(group, |group|, f);
    assert group[..|group|] == group;
  }

  function Weights(group: seq<MicroBatch>, c: BinCost): (w: seq<int>)
    ensures |w| == |group| && forall i :: 0 <= i < |w| ==> w[i] == c.Of(group[i].sequenceLengths)
  {
    seq(|group|, i requires 0 <= i < |group| => c.Of(group[i].sequenceLengths))
  }

  /** One list per rank, all equally long, holding only batches of the group. */
  predicate Shares(grid: seq<seq<MicroBatch>>, workers: nat, group: seq<MicroBatch>) {
    && |grid| == workers
    && (forall a :: 0 <= a < workers ==> |grid[a]| * workers == |group|)
    && (forall a, t :: 0 <= a < workers && 0 <= t < |grid[a]| ==> grid[a][t] in group)
  }

  /** The grid deals the group out by a partition whose loads differ no more than two of its batches do. */
  ghost predicate DealtEvenly(grid: seq<seq<MicroBatch>>, group: seq<MicroBatch>, workers: nat, c: BinCost)
    requires group != []
  {
    exists parts ::
      && EqualPartition(parts, workers, |group|)
      && grid == SelectAll(group, parts)
      && Spread(PartitionLoads(Weights(group, c), parts)) <= MaxOf(Weights(group, c)) - MinOf(Weights(group, c))
  }

  ghost predicate DealtFor(grid: seq<seq<MicroBatch>>, group: seq<MicroBatch>, workers: nat, c: BinCost) {
    if group == [] then grid == Filled([], workers) else DealtEvenly(grid, group, workers, c)
  }

  lemma {:induction false} SelectCost(group: seq<MicroBatch>, part: seq<nat>, c: BinCost)
    requires IndicesBelow(part, |group|)
    ensures Load(Weights(group, c), part) == Sum(Weights(Select(group, part), c))
  {
    if part != [] {
      SelectCost(group, part[1..], c);
      assert Weights(Select(group, part), c)[1..] == Weights(Select(group, part[1..]), c);
    }
  }

  /** The costs of any two ranks differ by no more than the costs of two batches of the group. */
  lemma RanksBalanced(grid: seq<seq<MicroBatch>>, group: seq<MicroBatch>, workers: nat, c: BinCost, a: nat, b: nat)
    requires group != [] && DealtEvenly(grid, group, workers, c) && a < workers && b < workers
    ensures |grid| == workers
    ensures Sum(Weights(grid[a], c)) - Sum(Weights(grid[b], c)) <= MaxOf(Weights(group, c)) - MinOf(Weights(group, c))
  {
    var w := Weights(group, c);
    var parts :|
      && EqualPartition(parts, workers, |group|)
      && grid == SelectAll(group, parts)
      && Spread(PartitionLoads(w, parts)) <= MaxOf(w) - MinOf(w);
    SelectCost(group, parts[a], c);
    SelectCost(group, parts[b], c);
    var loads := PartitionLoads(w, parts);
    assert loads[a] <= MaxOf(loads) && MinOf(loads) <= loads[b];
  }

  method DistributeGroup(group: seq<MicroBatch>, workers: nat, c: BinCost) returns (grid: seq<seq<MicroBatch>>)
    requires workers > 0 && |group| % workers == 0
    ensures Shares(grid, workers, group)
    ensures SumNested(grid, TrainedOf) == SumBags(group, TrainedOf)
    ensures DealtFor(grid, group, workers, c)
  {
    if group == [] {
      grid := Filled([], workers);
      EmptyShares(workers);
      return;
    }
    hide Spread;
    hide MaxOf;
    hide MinOf;
    hide PartitionLoads;
    hide Weights;
    hide TrainedOf;
    hide Shares;
    AtLeastOneEach(|group|, workers);
    var parts := BalancedPartition(Weights(group, c), workers);
    grid := SelectAll(group, parts);
    PartShares(group, parts, workers);
    PartitionTrained(group, parts, workers);
  }

  lemma PartShares(group: seq<MicroBatch>, parts: seq<seq<nat>>, workers: nat)
    requires EqualPartition(parts, workers, |group|)
    ensures Shares(SelectAll(group, parts), workers, group)
  {
  }

  lemma AtLeastOneEach(n: nat, k: nat)
    requires n > 0 && k > 0 && n % k == 0
    ensures k <= n
  {}

  lemma {:induction false} EmptyShares(workers: nat)
    ensures SumNested(Filled<seq<MicroBatch>>([], workers), TrainedOf) == multiset{}
    ensures forall a :: 0 <= a < workers ==> |Filled<seq<MicroBatch>>([], workers)[a]| * workers == 0
  {
    if workers > 0 {
      EmptyShares(workers - 1);
      assert Filled<seq<MicroBatch>>([], workers)[1..] == Filled<seq<MicroBatch>>([], workers - 1);
    }
  }

  // ---------------------------------------------------------------- the whole batch

  predicate Ready(m: MicroBatch, multiple: nat)
    requires multiple > 0
  {
    Aligned(m) && CanPad(m, multiple)
  }

  predicate AllReady(batches: seq<MicroBatch>, multiple: nat)
    requires multiple > 0
  {
    forall i :: 0 <= i < |batches| ==> Ready(batches[i], multiple)
  }

  function PadAll(batches: seq<MicroBatch>, multiple: nat): (r: seq<MicroBatch>)
    requires multiple > 0 && AllReady(batches, multiple)
    ensures |r| == |batches|
  {
    if batches == [] then []
    else
      assert Ready(batches[0], multiple);
      assert AllReady(batches[1..], multiple);
      [PadMicroBatch(batches[0], multiple)] + PadAll(batches[1..], multiple)
  }

  lemma {:induction false} LorasKnown(content: seq<Item>, numLoras: nat)
    requires PackRouted(content, numLoras).Success? && content != []
    ensures numLoras > 0
  {}

  lemma MaterializedReady(content: seq<Item>, numLoras: nat, multiple: nat)
    requires multiple > 0 && MaterializeBin(content, numLoras).Success? && Aligned(MaterializeBin(content, numLoras).value)
    ensures Ready(MaterializeBin(content, numLoras).value, multiple)
  {
    var m := MaterializeBin(content, numLoras).value;
    if content == [] {
      assert m.inputIds == [];
      DivisionUnique(0, multiple, 0, 0);
      DivisionUnique(multiple, multiple, 1, 0);
    } else {
      LorasKnown(content, numLoras);
      if PaddingSize(Len(m), multiple) > 0 && Len(m) == 0 {
        DivisionUnique(0, multiple, 0, 0);
        DivisionUnique(multiple, multiple, 1, 0);
      }
    }
  }

  lemma PadOne(m: MicroBatch, multiple: nat)
    requires multiple > 0 && Ready(m, multiple)
    ensures Aligned(PadMicroBatch(m, multiple)) && TrainedOf(PadMicroBatch(m, multiple)) == TrainedOf(m)
    ensures IsMultimodal(PadMicroBatch(m, multiple)) == IsMultimodal(m)
    ensures Len(PadMicroBatch(m, multiple)) == Len(m) + PaddingSize(Len(m), multiple)
  {
    hide Trained;
    if PaddingSize(Len(m), multiple) > 0 {
      assert multiple > 1;
      PaddedTrained(m, PaddingSize(Len(m), multiple));
      PaddedAligned(m, PaddingSize(Len(m), multiple));
    }
  }

  lemma {:induction false} PadAllTrained(batches: seq<MicroBatch>, multiple: nat)
    requires multiple > 0 && AllReady(batches, multiple)
    ensures SumBags(PadAll(batches, multiple), TrainedOf) == SumBags(batches, TrainedOf)
  {
    hide TrainedOf;
    hide PadMicroBatch;
    if batches != [] {
      PadOne(batches[0], multiple);
      assert AllReady(batches[1..], multiple);
      PadAllTrained(batches[1..], multiple);
    }
  }

  predicate EachSent(batches: seq<MicroBatch>, multiple: nat, maxSeqLen: nat)
    requires multiple > 0
  {
    forall i :: 0 <= i < |batches| ==> SentBatch(batches[i], multiple, maxSeqLen)
  }

  lemma {:induction false} PadAllSent(batches: seq<MicroBatch>, multiple: nat, maxSeqLen: nat)
    requires multiple > 0 && AllReady(batches, multiple)
    requires forall i :: 0 <= i < |batches| ==> Len(batches[i]) <= maxSeqLen
    ensures EachSent(PadAll(batches, multiple), multiple, maxSeqLen)
  {
    hide PadMicroBatch;
    hide Aligned;
    if batches != [] {
      PadOne(batches[0], multiple);
      PaddingDivides(Len(batches[0]), multiple);
      assert AllReady(batches[1..], multiple);
      PadAllSent(batches[1..], multiple, maxSeqLen);
    }
  }

  /** Every rank's list is the multimodal batches it was given followed by its text batches. */
  function Join(a: seq<seq<MicroBatch>>, b: seq<seq<MicroBatch>>): (r: seq<seq<MicroBatch>>)
    requires |a| == |b|
    ensures |r| == |a| && forall w :: 0 <= w < |a| ==> r[w] == a[w] + b[w]
  {
    seq(|a|, w requires 0 <= w < |a| => a[w] + b[w])
  }

  lemma {:induction false} JoinTrained(a: seq<seq<MicroBatch>>, b: seq<seq<MicroBatch>>)
    requires |a| == |b|
    ensures SumNested(Join(a, b), TrainedOf) == SumNested(a, TrainedOf) + SumNested(b, TrainedOf)
  {
    hide TrainedOf;
    if a != [] {
      SumBagsConcat(a[0], b[0], TrainedOf);
      assert Join(a, b)[1..] == Join(a[1..], b[1..]);
      JoinTrained(a[1..], b[1..]);
    }
  }

  /** Equally many batches per rank; at each step index every rank sees the same modality. */
  predicate UniformGrid(grid: seq<seq<MicroBatch>>, workers: nat, steps: nat, mmSteps: nat) {
    && |grid| == workers
    && (forall a :: 0 <= a < workers ==> |grid[a]| == steps)
    && (forall a, t :: 0 <= a < workers && 0 <= t < steps ==> (IsMultimodal(grid[a][t]) <==> t < mmSteps))
  }

  ghost predicate Uniform(grid: seq<seq<MicroBatch>>, workers: nat) {
    exists steps, mmSteps :: UniformGrid(grid, workers, steps, mmSteps)
  }

  predicate SentBatch(m: MicroBatch, multiple: nat, maxSeqLen: nat)
    requires multiple > 0
  {
    Aligned(m) && Len(m) % multiple == 0 && Len(m) < maxSeqLen + multiple
  }

  predicate AllSent(grid: seq<seq<MicroBatch>>, multiple: nat, maxSeqLen: nat)
    requires multiple > 0
  {
    forall a, t :: 0 <= a < |grid| && 0 <= t < |grid[a]| ==> SentBatch(grid[a][t], multiple, maxSeqLen)
  }

  ghost predicate PreparedItem(item: Item, lora: nat, s: TrainingSample, seqLen: nat) {
    item.lora == lora && Prepared(s, seqLen, item.sample)
  }

  ghost predicate AllPrepared(items: seq<Item>, samples: seq<TrainingSample>, loras: seq<nat>, seqLen: nat) {
    && |items| <= |samples| && |items| <= |loras|
    && forall i :: 0 <= i < |items| ==> PreparedItem(items[i], loras[i], samples[i], seqLen)
  }

  /** As many items as samples have a LoRA, each its sample prepared. */
  ghost predicate ItemsOf(items: seq<Item>, samples: seq<TrainingSample>, loras: seq<nat>, seqLen: nat) {
    |items| == Min(|samples|, |loras|) && AllPrepared(items, samples, loras, seqLen)
  }

  ghost predicate SomeUnpreparable(samples: seq<TrainingSample>, loras: seq<nat>, seqLen: nat) {
    exists i :: 0 <= i < Min(|samples|, |loras|) && Unpreparable(samples[i], seqLen)
  }

  lemma ItemsUnique(items: seq<Item>, more: seq<Item>, samples: seq<TrainingSample>, loras: seq<nat>, seqLen: nat)
    requires ItemsOf(items, samples, loras, seqLen) && ItemsOf(more, samples, loras, seqLen)
    requires !SomeUnpreparable(samples, loras, seqLen)
    ensures items == more
  {
    hide Prepared;
    hide Rejected;
    forall i | 0 <= i < |items| ensures items[i] == more[i] {
      assert PreparedItem(items[i], loras[i], samples[i], seqLen) && PreparedItem(more[i], loras[i], samples[i], seqLen);
      assert !Unpreparable(samples[i], seqLen);
      PreparedUnique(samples[i], seqLen, items[i].sample, more[i].sample);
    }
  }

  method PrepareAll(samples: seq<TrainingSample>, loras: seq<nat>, seqLen: nat) returns (r: PackResult<seq<Item>>)
    ensures r.Success? ==> ItemsOf(r.value, samples, loras, seqLen)
    ensures r.Failure? <==> SomeUnpreparable(samples, loras, seqLen)
  {
    hide Prepared;
    hide Unpreparable;
    var items := [];
    for i := 0 to Min(|samples|, |loras|)
      invariant |items| == i && AllPrepared(items, samples, loras, seqLen)
      invariant forall j :: 0 <= j < i ==> !Unpreparable(samples[j], seqLen)
    {
      var prepared := PrepareSample(samples[i], seqLen);
      if prepared.Failure? {
        assert Unpreparable(samples[i], seqLen);
        return Failure(prepared.error);
      }
      items := items + [Item(loras[i], prepared.value)];
    }
    return Success(items);
  }

  lemma PreparedReady(items: seq<Item>, samples: seq<TrainingSample>, loras: seq<nat>, seqLen: nat)
    requires AllPrepared(items, samples, loras, seqLen)
    ensures ItemsAligned(items) && forall i :: 0 <= i < |items| ==> ItemLen(items[i]) <= seqLen
  {
    forall i | 0 <= i < |items| ensures Aligned(items[i].sample) && ItemLen(items[i]) <= seqLen {
      assert PreparedItem(items[i], loras[i], samples[i], seqLen);
    }
  }

  lemma {:induction false} LengthsTotal(content: seq<Item>)
    ensures SumNat(Lengths(content)) == TotalLen(content)
  {
    if content != [] { LengthsTotal(content[1..]); }
  }

  lemma PackedLen(content: seq<Item>, numLoras: nat)
    requires ItemsAligned(content) && MaterializeBin(content, numLoras).Success?
    ensures Len(MaterializeBin(content, numLoras).value) == TotalLen(content)
  {
    AllSameLengths(content);
    GatherLength(content, IdsOf);
    LengthsTotal(content);
  }

  lemma PackedBinsWithin(items: seq<Item>, maxSeqLen: nat, workers: nat, c: BinCost)
    requires workers > 0 && forall i :: 0 <= i < |items| ==> ItemLen(items[i]) <= maxSeqLen
    ensures AllWithin(PackedBins(items, maxSeqLen, workers, c), maxSeqLen)
  {
    var sorted := StableSort(items, PackBefore);
    var bins := FirstFit(sorted, maxSeqLen);
    SortKeepsItems(items, PackBefore);
    FirstFitKeepsItems(sorted, maxSeqLen);
    FirstFitGood(sorted, maxSeqLen);
    forall b | 0 <= b < |bins| ensures TotalLen(bins[b]) <= maxSeqLen {
      if |bins[b]| == 1 {
        BagMember(bins, b);
        assert bins[b][0] in multiset(bins[b]);
        assert bins[b][0] in multiset(items);
        assert bins[b] == [bins[b][0]];
        assert TotalLen(bins[b]) == ItemLen(bins[b][0]) + TotalLen(bins[b][1..]);
      }
    }
    if workers > 1 { ExpandKeepsLimit(c, bins, Target(|bins|, workers), maxSeqLen); }
  }

  /** What packing hands to padding. */
  lemma PackedBatches(items: seq<Item>, maxSeqLen: nat, workers: nat, c: BinCost, numLoras: nat, multiple: nat)
    requires workers > 0 && multiple > 0 && ItemsAligned(items) && forall i :: 0 <= i < |items| ==> ItemLen(items[i]) <= maxSeqLen
    requires MaterializeAll(PackedBins(items, maxSeqLen, workers, c), numLoras).Success?
    ensures var batches := MaterializeAll(PackedBins(items, maxSeqLen, workers, c), numLoras).value;
            && AllReady(batches, multiple)
            && (forall i :: 0 <= i < |batches| ==> Len(batches[i]) <= maxSeqLen)
            && SumBags(batches, TrainedOf) == SumBags(items, ItemTrained)
  {
    hide PackedBins;
    hide MaterializeBin;
    hide MaterializeAll;
    hide Aligned;
    hide TrainedOf;
    hide CanPad;
    var bins := PackedBins(items, maxSeqLen, workers, c);
    var batches := MaterializeAll(bins, numLoras).value;
    PackedBinsReady(items, maxSeqLen, workers, c);
    PackedBinsWithin(items, maxSeqLen, workers, c);
    MaterializedEach(bins, numLoras);
    MaterializedAllTrained(bins, numLoras);
    forall i | 0 <= i < |batches| ensures Ready(batches[i], multiple) && Len(batches[i]) <= maxSeqLen {
      assert MaterializeBin(bins[i], numLoras) == Success(batches[i]);
      assert ItemsAligned(bins[i]) && TotalLen(bins[i]) <= maxSeqLen;
      PackedLen(bins[i], numLoras);
      MaterializedReady(bins[i], numLoras, multiple);
    }
  }

  /** One modality's batches, padded with dummies to a multiple of the number of ranks. */
  function GroupFor(batches: seq<MicroBatch>, multimodal: bool, workers: nat): seq<MicroBatch>
    requires workers > 0
  {
    PadGroup(OfModality(batches, multimodal), workers)
  }

  lemma GroupProperties(batches: seq<MicroBatch>, multimodal: bool, workers: nat, multiple: nat, maxSeqLen: nat)
    requires workers > 0 && multiple > 0 && EachSent(batches, multiple, maxSeqLen)
    ensures var group := GroupFor(batches, multimodal, workers);
            && |group| % workers == 0 && EachSent(group, multiple, maxSeqLen)
            && (forall i :: 0 <= i < |group| ==> IsMultimodal(group[i]) == multimodal)
            && SumBags(group, TrainedOf) == SumBags(OfModality(batches, multimodal), TrainedOf)
  {
    hide TrainedOf;
    hide Aligned;
    hide PaddingSize;
    var chosen := OfModality(batches, multimodal);
    forall i | 0 <= i < |chosen| ensures SentBatch(chosen[i], multiple, maxSeqLen) {
      assert chosen[i] in batches;
    }
    assert AllAligned(chosen);
    PadGroupDivides(chosen, workers);
    PadGroupTrained(chosen, workers, multimodal);
    var group := GroupFor(batches, multimodal, workers);
    forall i | 0 <= i < |group| ensures SentBatch(group[i], multiple, maxSeqLen) {
      if i >= |chosen| { assert Len(group[i]) == Len(chosen[0]); }
    }
  }

  lemma GridFromShares(mm: seq<seq<MicroBatch>>, text: seq<seq<MicroBatch>>, workers: nat,
                       mmGroup: seq<MicroBatch>, textGroup: seq<MicroBatch>, multiple: nat, maxSeqLen: nat)
    requires workers > 0 && multiple > 0 && Shares(mm, workers, mmGroup) && Shares(text, workers, textGroup)
    requires forall i :: 0 <= i < |mmGroup| ==> IsMultimodal(mmGroup[i])
    requires forall i :: 0 <= i < |textGroup| ==> !IsMultimodal(textGroup[i])
    requires EachSent(mmGroup, multiple, maxSeqLen) && EachSent(textGroup, multiple, maxSeqLen)
    ensures UniformGrid(Join(mm, text), workers, |mm[0]| + |text[0]|, |mm[0]|)
    ensures AllSent(Join(mm, text), multiple, maxSeqLen)
  {
    hide SentBatch;
    var grid := Join(mm, text);
    forall a | 0 <= a < workers ensures |mm[a]| == |mm[0]| && |text[a]| == |text[0]| {
      SameQuotient(|mm[a]|, |mm[0]|, workers);
      SameQuotient(|text[a]|, |text[0]|, workers);
    }
    forall a, t | 0 <= a < workers && 0 <= t < |grid[a]|
      ensures (IsMultimodal(grid[a][t]) <==> t < |mm[0]|) && SentBatch(grid[a][t], multiple, maxSeqLen)
    {
      if t < |mm[0]| {
        assert grid[a][t] == mm[a][t] && mm[a][t] in mmGroup;
      } else {
        assert grid[a][t] == text[a][t - |mm[0]|] && text[a][t - |mm[0]|] in textGroup;
      }
    }
  }

  lemma SameQuotient(a: nat, b: nat, k: nat)
    requires k > 0 && a * k == b * k
    ensures a == b
  {
    if a < b {
      MulMonotone(k, a + 1, b);
      assert false;
    } else if b < a {
      MulMonotone(k, b + 1, a);
      assert false;
    }
  }

  /** Each modality's batches, with dummies, are dealt out evenly, and every rank gets the multimodal ones first. */
  ghost predicate Dealt(grid: seq<seq<MicroBatch>>, batches: seq<MicroBatch>, workers: nat, c: BinCost)
    requires workers > 0
  {
    exists mm, text ::
      && |mm| == |text| && grid == Join(mm, text)
      && DealtFor(mm, GroupFor(batches, true, workers), workers, c) && DealtFor(text, GroupFor(batches, false, workers), workers, c)
  }

  method DealBatches(batches: seq<MicroBatch>, workers: nat, c: BinCost, ghost multiple: nat, ghost seqLen: nat)
    returns (grid: seq<seq<MicroBatch>>)
    requires workers > 0 && multiple > 0 && EachSent(batches, multiple, seqLen)
    ensures Uniform(grid, workers) && AllSent(grid, multiple, seqLen)
    ensures SumNested(grid, TrainedOf) == SumBags(batches, TrainedOf)
    ensures Dealt(grid, batches, workers, c)
  {
    hide TrainedOf;
    hide Shares;
    hide UniformGrid;
    hide AllSent;
    hide OfModality;
    hide DealtFor;
    hide EachSent;
    hide GroupFor;
    var mmGroup, textGroup := GroupFor(batches, true, workers), GroupFor(batches, false, workers);
    ModalitiesCover(batches);
    GroupProperties(batches, true, workers, multiple, seqLen);
    GroupProperties(batches, false, workers, multiple, seqLen);
    var mm := DistributeGroup(mmGroup, workers, c);
    var text := DistributeGroup(textGroup, workers, c);
    SharesSize(mm, workers, mmGroup);
    SharesSize(text, workers, textGroup);
    GridFromShares(mm, text, workers, mmGroup, textGroup, multiple, seqLen);
    JoinTrained(mm, text);
    grid := Join(mm, text);
    assert UniformGrid(grid, workers, |mm[0]| + |text[0]|, |mm[0]|);
  }

  /** The grid trains exactly what the samples' own streams say about the trained tokens among those that are kept. */
  ghost predicate TrainsSamples(grid: seq<seq<MicroBatch>>, samples: seq<TrainingSample>, loras: seq<nat>, seqLen: nat) {
    exists cuts: seq<nat> ::
      && |cuts| == Min(|samples|, |loras|) && KeptOf(samples, seqLen, cuts)
      && SumNested(grid, TrainedOf) == TokensTrained(samples, cuts)
  }

  lemma {:induction false} ItemsTrain(items: seq<Item>, samples: seq<TrainingSample>, loras: seq<nat>, seqLen: nat)
    requires AllPrepared(items, samples, loras, seqLen)
    ensures KeptOf(samples, seqLen, Lengths(items)) && SumBags(items, ItemTrained) == TokensTrained(samples, Lengths(items))
  {
    hide Prepared;
    hide KeepsFirst;
    hide Covers;
    hide Trained;
    hide SampleTrained;
    hide Aligned;
    if items != [] {
      var s, m := samples[0], items[0].sample;
      assert PreparedItem(items[0], loras[0], s, seqLen);
      PreparedLength(s, seqLen, m);
      PreparedTrained(s, seqLen, m);
      forall i | 0 <= i < |items| - 1 ensures PreparedItem(items[1..][i], loras[1..][i], samples[1..][i], seqLen) {
        assert PreparedItem(items[i + 1], loras[i + 1], samples[i + 1], seqLen);
      }
      ItemsTrain(items[1..], samples[1..], loras[1..], seqLen);
      var cuts := Lengths(items);
      forall k | 0 <= k < |cuts| ensures KeepsFirst(samples[k], seqLen, cuts[k]) && Covers(samples[k], cuts[k]) {
        if k > 0 { assert samples[k] == samples[1..][k - 1] && cuts[k] == cuts[1..][k - 1]; }
      }
    }
  }

  /** The samples are all preparable but some packed bin cannot be materialised. */
  ghost predicate PackingFails(samples: seq<TrainingSample>, loras: seq<nat>, seqLen: nat, workers: nat, numLoras: nat, c: BinCost)
    requires workers > 0
  {
    exists items :: ItemsOf(items, samples, loras, seqLen) && MaterializeAll(PackedBins(items, seqLen, workers, c), numLoras).Failure?
  }

  /** The grid deals out the prepared samples, packed, materialised and padded. */
  ghost predicate PackedFrom(grid: seq<seq<MicroBatch>>, samples: seq<TrainingSample>, loras: seq<nat>, seqLen: nat, workers: nat,
                             numLoras: nat, c: BinCost, multiple: nat)
    requires workers > 0 && multiple > 0
  {
    exists items ::
      && ItemsOf(items, samples, loras, seqLen)
      && var packed := MaterializeAll(PackedBins(items, seqLen, workers, c), numLoras);
         packed.Success? && AllReady(packed.value, multiple) && Dealt(grid, PadAll(packed.value, multiple), workers, c)
  }

  /**
   From training samples to the grid of the data ranks: nothing trained is lost, repeated or invented,
   every rank gets equally many micro batches, and at each step all ranks see the same modality.
   */
  method PrepareBatch(samples: seq<TrainingSample>, seqLen: nat, workers: nat, loras: seq<nat>, numLoras: nat, c: BinCost, multiple: nat)
    returns (r: PackResult<seq<seq<MicroBatch>>>)
    requires workers > 0 && multiple > 0
    ensures r.Success? ==> Uniform(r.value, workers) && AllSent(r.value, multiple, seqLen)
    ensures r.Success? ==> TrainsSamples(r.value, samples, loras, seqLen)
    ensures r.Success? ==> PackedFrom(r.value, samples, loras, seqLen, workers, numLoras, c, multiple)
    ensures r.Failure? <==> SomeUnpreparable(samples, loras, seqLen) || PackingFails(samples, loras, seqLen, workers, numLoras, c)
  {
    hide SomeUnpreparable;
    hide AllPrepared;
    hide PackedBins;
    hide MaterializeAll;
    hide TrainedOf;
    hide Uniform;
    hide AllSent;
    hide AllReady;
    hide PadAll;
    hide Aligned;
    hide EachSent;
    hide Dealt;
    hide KeptOf;
    hide TokensTrained;
    var prepared := PrepareAll(samples, loras, seqLen);
    if prepared.Failure? { return Failure(prepared.error); }
    var items := prepared.value;
    forall more | ItemsOf(more, samples, loras, seqLen) ensures more == items { ItemsUnique(items, more, samples, loras, seqLen); }
    PreparedReady(items, samples, loras, seqLen);
    var packed := PackIntoMicroBatches(items, seqLen, numLoras, workers, c);
    if packed.Failure? { return Failure(packed.error); }
    PackedBatches(items, seqLen, workers, c, numLoras, multiple);
    var batches := PadAll(packed.value, multiple);
    PadAllTrained(packed.value, multiple);
    PadAllSent(packed.value, multiple, seqLen);
    var grid := DealBatches(batches, workers, c, multiple, seqLen);
    ItemsTrain(items, samples, loras, seqLen);
    assert TrainsSamples(grid, samples, loras, seqLen);
    return Success(grid);
  }

  lemma SharesSize(grid: seq<seq<MicroBatch>>, workers: nat, group: seq<MicroBatch>)
    requires Shares(grid, workers, group)
    ensures |grid| == workers
  {}
}
