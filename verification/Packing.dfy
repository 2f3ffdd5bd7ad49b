/**
 First-Fit-Decreasing packing of prepared samples into micro-batch bins, and the splitting of bins until
 every data rank can get the same number of them.
 */
module Packing {
  import opened Wrappers
  import opened Sequences
  import opened MicroBatches
  import opened Materialization

  /** Estimated forward compute of a packed bin: linear and quadratic in the sequence lengths. */
  datatype BinCost = BinCost(linear: nat, quadratic: nat) {
    function Of(lens: seq<nat>): nat {
      if lens == [] then 0 else OfOne(lens[0]) + Of(lens[1..])
    }

    function OfOne(n: nat): nat {
      linear * n + quadratic * (n * n)
    }
  }

  function SumSquares(lens: seq<nat>): nat {
    if lens == [] then 0 else lens[0] * lens[0] + SumSquares(lens[1..])
  }

  /** The cost is the formula `linear * sum(seqlens) + quadratic * sum(n * n for n in seqlens)`. */
  lemma {:induction false} CostFormula(c: BinCost, lens: seq<nat>)
    ensures c.Of(lens) == c.linear * SumNat(lens) + c.quadratic * SumSquares(lens)
  {
    if lens != [] {
      CostFormula(c, lens[1..]);
      Distribute(c.linear, lens[0], SumNat(lens[1..]));
      Distribute(c.quadratic, lens[0] * lens[0], SumSquares(lens[1..]));
    }
  }

  lemma Distribute(k: int, a: int, b: int)
    ensures k * (a + b) == k * a + k * b
  {}

  function ItemLen(item: Item): nat { Len(item.sample) }

  function TotalLen(content: seq<Item>): nat {
    if content == [] then 0 else ItemLen(content[0]) + TotalLen(content[1..])
  }

  lemma {:induction false} TotalLenAppend(content: seq<Item>, item: Item)
    ensures TotalLen(content + [item]) == TotalLen(content) + ItemLen(item)
  {
    if content == [] {
      assert content + [item] == [item];
      assert TotalLen([item]) == ItemLen(item) + TotalLen([item][1..]);
    } else {
      assert (content + [item])[1..] == content[1..] + [item];
      TotalLenAppend(content[1..], item);
    }
  }

  // ---------------------------------------------------------------- what fits into a bin

  predicate IsMultimodal(s: MicroBatch) { s.mmKwargs.Some? }

  function FirstMultimodal(content: seq<Item>): (r: Option<MicroBatch>)
    ensures r.Some? <==> exists i :: 0 <= i < |content| && IsMultimodal(content[i].sample)
    ensures r.Some? ==> IsMultimodal(r.value)
  {
    if content == [] then None
    else if IsMultimodal(content[0].sample) then Some(content[0].sample)
    else FirstMultimodal(content[1..])
  }

  predicate CompatibleTensors(a: Tensor, b: Tensor) {
    a.dtype == b.dtype && |a.shape| > 0 && |a.shape| == |b.shape| && a.shape[1..] == b.shape[1..]
  }

  predicate CanAdd(content: seq<Item>, item: Item, maxSeqLen: nat)
    requires content != []
  {
    CanAddTo(TotalLen(content), content, item, maxSeqLen)
  }

  /** Loss routing is per token, so only length, routed experts, LoRA and modality sidecars decide. */
  predicate CanAddTo(length: nat, content: seq<Item>, item: Item, maxSeqLen: nat)
    requires content != []
  {
    if length + ItemLen(item) > maxSeqLen then false
    else if content[0].sample.routedExperts.None? != item.sample.routedExperts.None? then false
    else
      var existing := FirstMultimodal(content);
      if existing.None? && !IsMultimodal(item.sample) then true
      else if content[0].lora != item.lora then false
      else if existing.Some? && IsMultimodal(item.sample) then
        var dst, src := existing.value.mmKwargs.value, item.sample.mmKwargs.value;
        dst.Keys == src.Keys && forall k :: k in dst ==> CompatibleTensors(dst[k], src[k])
      else true
  }

  // ---------------------------------------------------------------- first fit, on bin contents

  /** Where the first bin that accepts the item is, or the number of bins. */
  function FirstFitIndex(bins: seq<seq<Item>>, item: Item, maxSeqLen: nat): (i: nat)
    requires forall b :: 0 <= b < |bins| ==> bins[b] != []
    ensures i <= |bins|
    ensures i < |bins| ==> CanAdd(bins[i], item, maxSeqLen)
    ensures forall b :: 0 <= b < i ==> !CanAdd(bins[b], item, maxSeqLen)
  {
    if bins == [] then 0
    else if CanAdd(bins[0], item, maxSeqLen) then 0
    else
      var i := FirstFitIndex(bins[1..], item, maxSeqLen);
      assert forall b :: 1 <= b < i + 1 ==> bins[b] == bins[1..][b - 1];
      i + 1
  }

  function Place(bins: seq<seq<Item>>, item: Item, i: nat): seq<seq<Item>>
    requires i <= |bins|
  {
    if i < |bins| then bins[i := bins[i] + [item]] else bins + [[item]]
  }

  /** The bins after placing the items in order. */
  function FirstFit(items: seq<Item>, maxSeqLen: nat): (bins: seq<seq<Item>>)
    ensures forall b :: 0 <= b < |bins| ==> bins[b] != []
  {
    if items == [] then []
    else
      var n := |items| - 1;
      var bins := FirstFit(items[..n], maxSeqLen);
      Place(bins, items[n], FirstFitIndex(bins, items[n], maxSeqLen))
  }

  lemma {:induction false} PlaceKeepsItems(bins: seq<seq<Item>>, item: Item, i: nat)
    requires i <= |bins|
    ensures Bag(Place(bins, item, i)) == Bag(bins) + multiset{item}
  {
    if i < |bins| {
      BagUpdate(bins, i, bins[i] + [item]);
      assert multiset(bins[i] + [item]) == multiset(bins[i]) + multiset{item};
      BagPlus(Bag(Place(bins, item, i)), Bag(bins), multiset(bins[i]), multiset{item});
    } else {
      BagConcat(bins, [[item]]);
      assert Bag([[item]]) == multiset([item]) + Bag([[item]][1..]);
    }
  }

  lemma BagPlus<T>(after: multiset<T>, before: multiset<T>, common: multiset<T>, added: multiset<T>)
    requires after + common == before + (common + added)
    ensures after == before + added
  {
    forall e: T ensures after[e] == (before + added)[e] {
      assert (after + common)[e] == (before + (common + added))[e];
    }
  }

  /** Packing keeps the multiset of samples. */
  lemma {:induction false} FirstFitKeepsItems(items: seq<Item>, maxSeqLen: nat)
    ensures Bag(FirstFit(items, maxSeqLen)) == multiset(items)
  {
    if items != [] {
      var n := |items| - 1;
      var bins := FirstFit(items[..n], maxSeqLen);
      FirstFitKeepsItems(items[..n], maxSeqLen);
      PlaceKeepsItems(bins, items[n], FirstFitIndex(bins, items[n], maxSeqLen));
      assert items == items[..n] + [items[n]];
    }
  }

  /** A bin either fits the limit or holds one oversized sample; its samples agree on carrying routed experts. */
  predicate GoodBin(content: seq<Item>, maxSeqLen: nat) {
    && content != []
    && (TotalLen(content) <= maxSeqLen || |content| == 1)
    && UniformRouting(content)
  }

  lemma GoodAfterAdd(content: seq<Item>, item: Item, maxSeqLen: nat)
    requires GoodBin(content, maxSeqLen) && CanAdd(content, item, maxSeqLen)
    ensures GoodBin(content + [item], maxSeqLen)
  {
    TotalLenAppend(content, item);
    var after := content + [item];
    forall i, j | 0 <= i < |after| && 0 <= j < |after|
      ensures after[i].sample.routedExperts.Some? == after[j].sample.routedExperts.Some?
    {
      assert after[i].sample.routedExperts.Some? == content[0].sample.routedExperts.Some?;
      assert after[j].sample.routedExperts.Some? == content[0].sample.routedExperts.Some?;
    }
  }

  lemma {:induction false} FirstFitGood(items: seq<Item>, maxSeqLen: nat)
    ensures forall b :: 0 <= b < |FirstFit(items, maxSeqLen)| ==> GoodBin(FirstFit(items, maxSeqLen)[b], maxSeqLen)
  {
    if items != [] {
      var n := |items| - 1;
      var bins := FirstFit(items[..n], maxSeqLen);
      FirstFitGood(items[..n], maxSeqLen);
      var i := FirstFitIndex(bins, items[n], maxSeqLen);
      if i < |bins| {
        GoodAfterAdd(bins[i], items[n], maxSeqLen);
      }
    }
  }

  // ---------------------------------------------------------------- any two bins together exceed the limit

  predicate TextOnly(items: seq<Item>) {
    forall i :: 0 <= i < |items| ==> !IsMultimodal(items[i].sample)
  }

  /** For text samples with the same routed-experts presence, only the length limit can reject a bin. */
  lemma TextAddsByLength(content: seq<Item>, item: Item, maxSeqLen: nat)
    requires content != [] && TextOnly(content) && !IsMultimodal(item.sample)
    requires content[0].sample.routedExperts.None? == item.sample.routedExperts.None?
    ensures CanAdd(content, item, maxSeqLen) <==> TotalLen(content) + ItemLen(item) <= maxSeqLen
  {}

  predicate TextBins(bins: seq<seq<Item>>, routed: bool) {
    forall b :: 0 <= b < |bins| ==> TextBin(bins[b], routed)
  }

  predicate TextBin(content: seq<Item>, routed: bool) {
    content != [] && forall i :: 0 <= i < |content| ==> TextItem(content[i], routed)
  }

  predicate TextItem(item: Item, routed: bool) {
    !IsMultimodal(item.sample) && item.sample.routedExperts.Some? == routed
  }

  predicate PairwiseOver(bins: seq<seq<Item>>, maxSeqLen: nat) {
    forall a, b :: 0 <= a < b < |bins| ==> TotalLen(bins[a]) + TotalLen(bins[b]) > maxSeqLen
  }

  lemma PlaceKeepsPairs(bins: seq<seq<Item>>, item: Item, maxSeqLen: nat, routed: bool)
    requires TextBins(bins, routed) && TextItem(item, routed) && PairwiseOver(bins, maxSeqLen)
    ensures TextBins(Place(bins, item, FirstFitIndex(bins, item, maxSeqLen)), routed)
    ensures PairwiseOver(Place(bins, item, FirstFitIndex(bins, item, maxSeqLen)), maxSeqLen)
  {
    var i := FirstFitIndex(bins, item, maxSeqLen);
    if i < |bins| {
      TotalLenAppend(bins[i], item);
      assert TextBin(bins[i], routed);
    } else {
      assert TotalLen([item]) == ItemLen(item) + TotalLen([item][1..]);
      forall b | 0 <= b < |bins| ensures TotalLen(bins[b]) + ItemLen(item) > maxSeqLen {
        assert TextBin(bins[b], routed) && TextItem(bins[b][0], routed);
        TextAddsByLength(bins[b], item, maxSeqLen);
      }
    }
  }

  lemma {:induction false} FirstFitPairs(items: seq<Item>, maxSeqLen: nat, routed: bool)
    requires forall i :: 0 <= i < |items| ==> TextItem(items[i], routed)
    ensures TextBins(FirstFit(items, maxSeqLen), routed)
    ensures PairwiseOver(FirstFit(items, maxSeqLen), maxSeqLen)
  {
    if items != [] {
      var n := |items| - 1;
      FirstFitPairs(items[..n], maxSeqLen, routed);
      PlaceKeepsPairs(FirstFit(items[..n], maxSeqLen), items[n], maxSeqLen, routed);
    }
  }

  function BinTotal(bins: seq<seq<Item>>): nat {
    if bins == [] then 0 else TotalLen(bins[0]) + BinTotal(bins[1..])
  }

  /** Pairing neighbours around the ring: twice the total exceeds the limit once per bin. */
  lemma {:induction false} NeighbourSum(bins: seq<seq<Item>>, maxSeqLen: nat)
    requires |bins| >= 1 && PairwiseOver(bins, maxSeqLen)
    ensures 2 * BinTotal(bins) >= TotalLen(bins[0]) + TotalLen(bins[|bins| - 1]) + (|bins| - 1) * maxSeqLen + (|bins| - 1)
  {
    if |bins| == 1 {
      assert BinTotal(bins) == TotalLen(bins[0]) + BinTotal(bins[1..]);
    } else {
      assert PairwiseOver(bins[1..], maxSeqLen);
      NeighbourSum(bins[1..], maxSeqLen);
      MulSucc(|bins| - 2, maxSeqLen);
      assert TotalLen(bins[0]) + TotalLen(bins[1]) > maxSeqLen;
      assert bins[1..][|bins| - 2] == bins[|bins| - 1];
    }
  }

  /** First Fit uses fewer than 2 * total / limit bins. */
  lemma FirstFitUtilisation(items: seq<Item>, maxSeqLen: nat, routed: bool)
    requires forall i :: 0 <= i < |items| ==> TextItem(items[i], routed)
    requires |FirstFit(items, maxSeqLen)| >= 2
    ensures 2 * TotalLen(items) > |FirstFit(items, maxSeqLen)| * maxSeqLen
  {
    var bins := FirstFit(items, maxSeqLen);
    FirstFitPairs(items, maxSeqLen, routed);
    NeighbourSum(bins, maxSeqLen);
    assert TotalLen(bins[0]) + TotalLen(bins[|bins| - 1]) > maxSeqLen;
    MulSucc(|bins| - 1, maxSeqLen);
    FirstFitKeepsTotal(items, maxSeqLen);
  }

  lemma {:induction false} BinTotalUpdate(bins: seq<seq<Item>>, i: nat, item: Item)
    requires i <= |bins|
    ensures BinTotal(Place(bins, item, i)) == BinTotal(bins) + ItemLen(item)
  {
    if bins == [] {
      assert BinTotal([[item]]) == TotalLen([item]) + BinTotal([[item]][1..]);
      assert TotalLen([item]) == ItemLen(item) + TotalLen([item][1..]);
      assert Place(bins, item, i) == [[item]];
    } else if i == 0 {
      TotalLenAppend(bins[0], item);
      assert Place(bins, item, i)[1..] == bins[1..];
    } else {
      assert Place(bins, item, i)[1..] == Place(bins[1..], item, i - 1);
      BinTotalUpdate(bins[1..], i - 1, item);
    }
  }

  lemma {:induction false} FirstFitKeepsTotal(items: seq<Item>, maxSeqLen: nat)
    ensures BinTotal(FirstFit(items, maxSeqLen)) == TotalLen(items)
  {
    if items != [] {
      var n := |items| - 1;
      var bins := FirstFit(items[..n], maxSeqLen);
      FirstFitKeepsTotal(items[..n], maxSeqLen);
      BinTotalUpdate(bins, FirstFitIndex(bins, items[n], maxSeqLen), items[n]);
      assert items == items[..n] + [items[n]];
      TotalLenAppend(items[..n], items[n]);
    }
  }

  // ---------------------------------------------------------------- stable sorting

  function InsertBefore(item: Item, s: seq<Item>, before: (Item, Item) -> bool): seq<Item> {
    if s == [] then [item]
    else if before(item, s[0]) then [item] + s
    else [s[0]] + InsertBefore(item, s[1..], before)
  }

  /** A stable sort: an item is moved only past items it must strictly precede. */
  function StableSort(items: seq<Item>, before: (Item, Item) -> bool): seq<Item> {
    if items == [] then []
    else InsertBefore(items[|items| - 1], StableSort(items[..|items| - 1], before), before)
  }

  lemma {:induction false} InsertKeepsItems(item: Item, s: seq<Item>, before: (Item, Item) -> bool)
    ensures multiset(InsertBefore(item, s, before)) == multiset(s) + multiset{item}
  {
    if s != [] && !before(item, s[0]) {
      InsertKeepsItems(item, s[1..], before);
      assert s == [s[0]] + s[1..];
    }
  }

  lemma {:induction false} SortKeepsItems(items: seq<Item>, before: (Item, Item) -> bool)
    ensures multiset(StableSort(items, before)) == multiset(items)
  {
    if items != [] {
      var n := |items| - 1;
      SortKeepsItems(items[..n], before);
      InsertKeepsItems(items[n], StableSort(items[..n], before), before);
      assert items == items[..n] + [items[n]];
    }
  }

  /** Packing order: ascending LoRA index, then descending length. */
  predicate PackBefore(a: Item, b: Item) {
    a.lora < b.lora || (a.lora == b.lora && ItemLen(a) > ItemLen(b))
  }

  // ---------------------------------------------------------------- splitting one bin

  function ItemCost(c: BinCost, item: Item): nat { c.OfOne(ItemLen(item)) }

  function Workload(c: BinCost, content: seq<Item>): nat { c.Of(Lengths(content)) }

  lemma {:induction false} WorkloadAppend(c: BinCost, content: seq<Item>, item: Item)
    ensures Workload(c, content + [item]) == Workload(c, content) + ItemCost(c, item)
  {
    if content == [] {
      assert content + [item] == [item];
      assert Lengths([item]) == [ItemLen(item)] + Lengths([item][1..]);
      assert c.Of([ItemLen(item)]) == c.OfOne(ItemLen(item)) + c.Of([ItemLen(item)][1..]);
    } else {
      assert (content + [item])[1..] == content[1..] + [item];
      WorkloadAppend(c, content[1..], item);
    }
  }

  function InsertByCost(c: BinCost, item: Item, s: seq<Item>): seq<Item> {
    if s == [] then [item]
    else if ItemCost(c, item) > ItemCost(c, s[0]) then [item] + s
    else [s[0]] + InsertByCost(c, item, s[1..])
  }

  /** `sorted(samples, key=lambda pair: -cost)`, which is stable. */
  function Ranked(c: BinCost, items: seq<Item>): seq<Item> {
    if items == [] then [] else InsertByCost(c, items[|items| - 1], Ranked(c, items[..|items| - 1]))
  }

  predicate CostDescending(c: BinCost, s: seq<Item>) {
    forall i, j :: 0 <= i < j < |s| ==> ItemCost(c, s[i]) >= ItemCost(c, s[j])
  }

  lemma {:induction false} InsertByCostSorted(c: BinCost, item: Item, s: seq<Item>)
    requires CostDescending(c, s)
    ensures CostDescending(c, InsertByCost(c, item, s))
    ensures forall i :: 0 <= i < |InsertByCost(c, item, s)| ==> InsertByCost(c, item, s)[i] == item || InsertByCost(c, item, s)[i] in s
  {
    hide ItemCost;
    if s != [] && ItemCost(c, item) <= ItemCost(c, s[0]) {
      InsertByCostSorted(c, item, s[1..]);
    }
  }

  lemma {:induction false} InsertByCostItems(c: BinCost, item: Item, s: seq<Item>)
    ensures multiset(InsertByCost(c, item, s)) == multiset(s) + multiset{item}
    ensures |InsertByCost(c, item, s)| == |s| + 1
  {
    hide ItemCost;
    if s != [] && ItemCost(c, item) <= ItemCost(c, s[0]) {
      InsertByCostItems(c, item, s[1..]);
      assert s == [s[0]] + s[1..];
    }
  }

  lemma {:induction false} RankedSorted(c: BinCost, items: seq<Item>)
    ensures CostDescending(c, Ranked(c, items))
    ensures multiset(Ranked(c, items)) == multiset(items)
    ensures |Ranked(c, items)| == |items|
  {
    if items != [] {
      var n := |items| - 1;
      RankedSorted(c, items[..n]);
      InsertByCostSorted(c, items[n], Ranked(c, items[..n]));
      InsertByCostItems(c, items[n], Ranked(c, items[..n]));
      assert items == items[..n] + [items[n]];
    }
  }

  datatype Split = Split(left: seq<Item>, right: seq<Item>, leftWork: nat, rightWork: nat)

  /** Greedily places each ranked sample on the currently lighter side. */
  function SplitRanked(c: BinCost, ranked: seq<Item>): Split {
    if ranked == [] then Split([], [], 0, 0)
    else
      var n := |ranked| - 1;
      var s := SplitRanked(c, ranked[..n]);
      var cost := ItemCost(c, ranked[n]);
      if s.leftWork <= s.rightWork
      then s.(left := s.left + [ranked[n]], leftWork := s.leftWork + cost)
      else s.(right := s.right + [ranked[n]], rightWork := s.rightWork + cost)
  }

  function SplitBin(c: BinCost, content: seq<Item>): Split {
    SplitRanked(c, Ranked(c, content))
  }

  lemma {:induction false} SplitRankedItems(c: BinCost, ranked: seq<Item>)
    ensures var s := SplitRanked(c, ranked);
            multiset(s.left) + multiset(s.right) == multiset(ranked) && |s.left| + |s.right| == |ranked|
  {
    hide ItemCost;
    if ranked != [] {
      SplitRankedItems(c, ranked[..|ranked| - 1]);
      assert ranked == ranked[..|ranked| - 1] + [ranked[|ranked| - 1]];
    }
  }

  lemma {:induction false} SplitRankedWork(c: BinCost, ranked: seq<Item>)
    ensures var s := SplitRanked(c, ranked);
            s.leftWork == Workload(c, s.left) && s.rightWork == Workload(c, s.right)
  {
    hide ItemCost;
    if ranked != [] {
      var n := |ranked| - 1;
      SplitRankedWork(c, ranked[..n]);
      var s := SplitRanked(c, ranked[..n]);
      WorkloadAppend(c, s.left, ranked[n]);
      WorkloadAppend(c, s.right, ranked[n]);
    }
  }

  lemma SplitRankedKeeps(c: BinCost, ranked: seq<Item>)
    ensures var s := SplitRanked(c, ranked);
            && multiset(s.left) + multiset(s.right) == multiset(ranked)
            && |s.left| + |s.right| == |ranked|
            && s.leftWork == Workload(c, s.left) && s.rightWork == Workload(c, s.right)
  {
    SplitRankedItems(c, ranked);
    SplitRankedWork(c, ranked);
  }

  predicate Near(a: nat, b: nat, distance: nat) {
    a <= b + distance && b <= a + distance
  }

  /** The two sides differ by no more than the heaviest sample. */
  lemma {:induction false} SplitRankedBalanced(c: BinCost, ranked: seq<Item>, heaviest: nat)
    requires forall i :: 0 <= i < |ranked| ==> ItemCost(c, ranked[i]) <= heaviest
    ensures Near(SplitRanked(c, ranked).leftWork, SplitRanked(c, ranked).rightWork, heaviest)
  {
    if ranked != [] {
      SplitRankedBalanced(c, ranked[..|ranked| - 1], heaviest);
    }
  }

  /** The left side is never empty; the right side is empty exactly when every sample costs nothing. */
  lemma {:induction false} SplitRankedSides(c: BinCost, ranked: seq<Item>)
    requires CostDescending(c, ranked) && ranked != []
    ensures SplitRanked(c, ranked).left != []
    ensures SplitRanked(c, ranked).right == [] ==> SplitRanked(c, ranked).rightWork == 0
    ensures ItemCost(c, ranked[0]) == 0 ==> SplitRanked(c, ranked).right == [] && SplitRanked(c, ranked).leftWork == 0
    ensures ItemCost(c, ranked[0]) > 0 ==> SplitRanked(c, ranked).leftWork > 0
    ensures ItemCost(c, ranked[0]) > 0 && |ranked| >= 2 ==> SplitRanked(c, ranked).right != []
  {
    hide BinCost.OfOne;
    var n := |ranked| - 1;
    if n > 0 {
      SplitRankedSides(c, ranked[..n]);
    } else {
      assert ranked[..0] == [];
    }
  }

  predicate InBag(content: seq<Item>, whole: seq<Item>) {
    forall i :: 0 <= i < |content| ==> content[i] in whole
  }

  lemma InBagFromMultiset(part: seq<Item>, rest: seq<Item>, whole: seq<Item>)
    requires multiset(part) + multiset(rest) == multiset(whole)
    ensures InBag(part, whole)
  {
    forall i | 0 <= i < |part| ensures part[i] in whole {
      assert part[i] in multiset(part) + multiset(rest);
      assert part[i] in multiset(whole);
    }
  }

  /** A split moves every sample to exactly one side. */
  lemma SplitBinItems(c: BinCost, content: seq<Item>)
    ensures multiset(SplitBin(c, content).left) + multiset(SplitBin(c, content).right) == multiset(content)
    ensures |SplitBin(c, content).left| + |SplitBin(c, content).right| == |content|
    ensures InBag(SplitBin(c, content).left, content) && InBag(SplitBin(c, content).right, content)
  {
    hide ItemCost;
    hide Workload;
    RankedSorted(c, content);
    SplitRankedKeeps(c, Ranked(c, content));
    var s := SplitBin(c, content);
    InBagFromMultiset(s.left, s.right, content);
    InBagFromMultiset(s.right, s.left, content);
  }

  /** The workloads of the two sides differ by at most the heaviest sample. */
  lemma SplitBinBalanced(c: BinCost, content: seq<Item>, heaviest: nat)
    requires forall i :: 0 <= i < |content| ==> ItemCost(c, content[i]) <= heaviest
    ensures Near(Workload(c, SplitBin(c, content).left), Workload(c, SplitBin(c, content).right), heaviest)
  {
    hide ItemCost;
    hide Workload;
    var ranked := Ranked(c, content);
    RankedSorted(c, content);
    SplitRankedKeeps(c, ranked);
    forall i | 0 <= i < |ranked| ensures ItemCost(c, ranked[i]) <= heaviest {
      assert ranked[i] in multiset(ranked);
      assert ranked[i] in multiset(content);
    }
    SplitRankedBalanced(c, ranked, heaviest);
  }

  predicate SomePositive(c: BinCost, content: seq<Item>) {
    exists i :: 0 <= i < |content| && ItemCost(c, content[i]) > 0
  }

  /** Both sides hold a sample exactly when some sample has a positive cost. */
  lemma SplitBinSides(c: BinCost, content: seq<Item>)
    requires |content| >= 2
    ensures SplitBin(c, content).left != []
    ensures SplitBin(c, content).right != [] <==> SomePositive(c, content)
  {
    hide ItemCost;
    var ranked := Ranked(c, content);
    RankedSorted(c, content);
    SplitRankedSides(c, ranked);
    assert ranked[0] in multiset(ranked);
    assert ranked[0] in multiset(content);
    if SomePositive(c, content) {
      var i :| 0 <= i < |content| && ItemCost(c, content[i]) > 0;
      assert content[i] in multiset(content);
      assert content[i] in multiset(ranked);
      var j :| 0 <= j < |ranked| && ranked[j] == content[i];
      assert ItemCost(c, ranked[0]) >= ItemCost(c, ranked[j]);
    }
  }

  // ---------------------------------------------------------------- splitting until the target is reached

  predicate Splittable(content: seq<Item>) {
    |content| > 1 && FirstMultimodal(content).None?
  }

  /** `max((workload, idx))` over the splittable bins. */
  function Heaviest(c: BinCost, bins: seq<seq<Item>>): (r: Option<nat>)
    ensures r.Some? ==> r.value < |bins| && Splittable(bins[r.value])
    ensures r.None? ==> forall b :: 0 <= b < |bins| ==> !Splittable(bins[b])
  {
    if bins == [] then None
    else
      var n := |bins| - 1;
      var r := Heaviest(c, bins[..n]);
      if Splittable(bins[n]) && (r.None? || Workload(c, bins[n]) >= Workload(c, bins[r.value])) then Some(n) else r
  }

  function SplitAt(c: BinCost, bins: seq<seq<Item>>, i: nat): (r: seq<seq<Item>>)
    requires i < |bins|
    ensures |r| == |bins| + 1
  {
    bins[i := SplitBin(c, bins[i]).left] + [SplitBin(c, bins[i]).right]
  }

  function Expand(c: BinCost, bins: seq<seq<Item>>, target: nat): seq<seq<Item>>
    decreases target - |bins|
  {
    if |bins| >= target then bins
    else
      match Heaviest(c, bins)
      case None => bins
      case Some(i) => Expand(c, SplitAt(c, bins, i), target)
  }

  lemma SplitAtKeepsItems(c: BinCost, bins: seq<seq<Item>>, i: nat)
    requires i < |bins| && Splittable(bins[i])
    ensures Bag(SplitAt(c, bins, i)) == Bag(bins)
  {
    hide SplitBin;
    var s := SplitBin(c, bins[i]);
    SplitBinItems(c, bins[i]);
    BagUpdate(bins, i, s.left);
    BagConcat(bins[i := s.left], [s.right]);
    assert Bag([s.right]) == multiset(s.right) + Bag([s.right][1..]);
    BagSplit(Bag(bins[i := s.left]), Bag(bins), multiset(s.left), multiset(s.right), multiset(bins[i]));
  }

  lemma BagSplit<T>(updated: multiset<T>, before: multiset<T>, l: multiset<T>, r: multiset<T>, whole: multiset<T>)
    requires updated + whole == before + l && l + r == whole
    ensures updated + r == before
  {
    forall e: T ensures (updated + r)[e] == before[e] {
      assert (updated + whole)[e] == (before + l)[e] && (l + r)[e] == whole[e];
    }
  }

  lemma {:induction false} ExpandKeepsItems(c: BinCost, bins: seq<seq<Item>>, target: nat)
    ensures Bag(Expand(c, bins, target)) == Bag(bins)
    decreases target - |bins|
  {
    if |bins| < target && Heaviest(c, bins).Some? {
      var i := Heaviest(c, bins).value;
      SplitAtKeepsItems(c, bins, i);
      ExpandKeepsItems(c, SplitAt(c, bins, i), target);
    }
  }

  predicate AllUniform(bins: seq<seq<Item>>) {
    forall b :: 0 <= b < |bins| ==> UniformRouting(bins[b])
  }

  lemma {:induction false} ExpandKeepsUniform(c: BinCost, bins: seq<seq<Item>>, target: nat)
    requires AllUniform(bins)
    ensures AllUniform(Expand(c, bins, target))
    decreases target - |bins|
  {
    if |bins| < target && Heaviest(c, bins).Some? {
      var i := Heaviest(c, bins).value;
      SplitBinItems(c, bins[i]);
      SubUniform(SplitBin(c, bins[i]).left, bins[i]);
      SubUniform(SplitBin(c, bins[i]).right, bins[i]);
      ExpandKeepsUniform(c, SplitAt(c, bins, i), target);
    }
  }

  lemma SubUniform(content: seq<Item>, whole: seq<Item>)
    requires InBag(content, whole) && UniformRouting(whole)
    ensures UniformRouting(content)
  {}

  predicate AllWithin(bins: seq<seq<Item>>, maxSeqLen: nat) {
    forall b :: 0 <= b < |bins| ==> TotalLen(bins[b]) <= maxSeqLen
  }

  lemma {:induction false} SplitRankedTotals(c: BinCost, ranked: seq<Item>)
    ensures TotalLen(SplitRanked(c, ranked).left) + TotalLen(SplitRanked(c, ranked).right) == TotalLen(ranked)
  {
    hide ItemCost;
    if ranked != [] {
      var n := |ranked| - 1;
      var s := SplitRanked(c, ranked[..n]);
      SplitRankedTotals(c, ranked[..n]);
      TotalLenAppend(s.left, ranked[n]);
      TotalLenAppend(s.right, ranked[n]);
      TotalLenAppend(ranked[..n], ranked[n]);
      assert ranked == ranked[..n] + [ranked[n]];
    }
  }

  lemma {:induction false} InsertByCostTotal(c: BinCost, item: Item, s: seq<Item>)
    ensures TotalLen(InsertByCost(c, item, s)) == TotalLen(s) + ItemLen(item)
  {
    hide ItemCost;
    if s == [] {
      assert TotalLen([item]) == ItemLen(item) + TotalLen([item][1..]);
    } else if ItemCost(c, item) > ItemCost(c, s[0]) {
      assert ([item] + s)[1..] == s;
    } else {
      InsertByCostTotal(c, item, s[1..]);
      assert InsertByCost(c, item, s)[1..] == InsertByCost(c, item, s[1..]);
    }
  }

  lemma {:induction false} RankedTotal(c: BinCost, items: seq<Item>)
    ensures TotalLen(Ranked(c, items)) == TotalLen(items)
  {
    if items != [] {
      var n := |items| - 1;
      RankedTotal(c, items[..n]);
      InsertByCostTotal(c, items[n], Ranked(c, items[..n]));
      TotalLenAppend(items[..n], items[n]);
      assert items == items[..n] + [items[n]];
    }
  }

  /** Splitting never makes a bin longer. */
  lemma {:induction false} ExpandKeepsLimit(c: BinCost, bins: seq<seq<Item>>, target: nat, maxSeqLen: nat)
    requires AllWithin(bins, maxSeqLen)
    ensures AllWithin(Expand(c, bins, target), maxSeqLen)
    decreases target - |bins|
  {
    if |bins| < target && Heaviest(c, bins).Some? {
      var i := Heaviest(c, bins).value;
      RankedTotal(c, bins[i]);
      SplitRankedTotals(c, Ranked(c, bins[i]));
      ExpandKeepsLimit(c, SplitAt(c, bins, i), target, maxSeqLen);
    }
  }

  /** How many bins the contents could be split into: one per sample of a text bin, one for any other bin. */
  function Capacity(bins: seq<seq<Item>>): nat {
    if bins == [] then 0 else (if Splittable(bins[0]) then |bins[0]| else 1) + Capacity(bins[1..])
  }

  lemma {:induction false} CapacityConcat(a: seq<seq<Item>>, b: seq<seq<Item>>)
    ensures Capacity(a + b) == Capacity(a) + Capacity(b)
  {
    if a == [] {
      assert a + b == b;
    } else {
      assert (a + b)[1..] == a[1..] + b;
      CapacityConcat(a[1..], b);
    }
  }

  lemma {:induction false} CapacityUpdate(bins: seq<seq<Item>>, i: nat, content: seq<Item>)
    requires i < |bins|
    ensures Capacity(bins[i := content]) + Capacity([bins[i]]) == Capacity(bins) + Capacity([content])
  {
    CapacityOne(bins[i]);
    CapacityOne(content);
    if i == 0 {
      assert bins[i := content][1..] == bins[1..];
    } else {
      assert bins[i := content][1..] == bins[1..][i - 1 := content];
      CapacityUpdate(bins[1..], i - 1, content);
    }
  }

  lemma CapacityOne(content: seq<Item>)
    ensures Capacity([content]) == if Splittable(content) then |content| else 1
  {
    assert Capacity([content]) == (if Splittable(content) then |content| else 1) + Capacity([content][1..]);
  }

  predicate PositiveCosts(c: BinCost, content: seq<Item>) {
    forall i :: 0 <= i < |content| ==> ItemCost(c, content[i]) > 0
  }

  predicate AllPositive(c: BinCost, bins: seq<seq<Item>>) {
    forall b :: 0 <= b < |bins| ==> bins[b] != [] && PositiveCosts(c, bins[b])
  }

  lemma PositiveParts(c: BinCost, content: seq<Item>)
    requires Splittable(content) && PositiveCosts(c, content)
    ensures SplitBin(c, content).left != [] && PositiveCosts(c, SplitBin(c, content).left)
    ensures SplitBin(c, content).right != [] && PositiveCosts(c, SplitBin(c, content).right)
    ensures Capacity([SplitBin(c, content).left]) + Capacity([SplitBin(c, content).right]) == |content|
  {
    hide ItemCost;
    hide SplitBin;
    hide FirstMultimodal;
    assert ItemCost(c, content[0]) > 0;
    SplitBinItems(c, content);
    SplitBinSides(c, content);
    CapacityOne(SplitBin(c, content).left);
    CapacityOne(SplitBin(c, content).right);
    TextParts(SplitBin(c, content).left, content);
    TextParts(SplitBin(c, content).right, content);
  }

  lemma SplitAtKeepsCapacity(c: BinCost, bins: seq<seq<Item>>, i: nat)
    requires i < |bins| && Splittable(bins[i]) && AllPositive(c, bins)
    ensures Capacity(SplitAt(c, bins, i)) == Capacity(bins)
    ensures AllPositive(c, SplitAt(c, bins, i))
  {
    hide ItemCost;
    hide SplitBin;
    hide PositiveCosts;
    PositiveParts(c, bins[i]);
    var s := SplitBin(c, bins[i]);
    CapacityUpdate(bins, i, s.left);
    CapacityConcat(bins[i := s.left], [s.right]);
    CapacityOne(bins[i]);
  }

  lemma TextParts(content: seq<Item>, whole: seq<Item>)
    requires InBag(content, whole) && FirstMultimodal(whole).None?
    ensures FirstMultimodal(content).None?
  {}

  lemma {:induction false} NothingSplittable(bins: seq<seq<Item>>)
    requires forall b :: 0 <= b < |bins| ==> !Splittable(bins[b])
    ensures Capacity(bins) == |bins|
  {
    if bins != [] { NothingSplittable(bins[1..]); }
  }

  lemma {:induction false} CapacityAtLeast(bins: seq<seq<Item>>)
    ensures Capacity(bins) >= |bins|
  {
    if bins != [] { CapacityAtLeast(bins[1..]); }
  }

  /** Splitting stops with exactly as many bins as asked for, or as many as the samples allow. */
  lemma {:induction false} ExpandCount(c: BinCost, bins: seq<seq<Item>>, target: nat)
    requires AllPositive(c, bins)
    ensures |Expand(c, bins, target)| == if |bins| >= target then |bins| else Min(target, Capacity(bins))
    ensures AllPositive(c, Expand(c, bins, target))
    decreases target - |bins|
  {
    CapacityAtLeast(bins);
    if |bins| < target {
      match Heaviest(c, bins)
      case None => NothingSplittable(bins);
      case Some(i) =>
        SplitAtKeepsCapacity(c, bins, i);
        CapacityAtLeast(SplitAt(c, bins, i));
        ExpandCount(c, SplitAt(c, bins, i), target);
    }
  }

  /** For text bins the capacity is the number of samples. */
  lemma {:induction false} TextCapacity(bins: seq<seq<Item>>)
    requires forall b :: 0 <= b < |bins| ==> bins[b] != [] && FirstMultimodal(bins[b]).None?
    ensures Capacity(bins) == |Bag(bins)|
  {
    if bins != [] {
      TextCapacity(bins[1..]);
      assert |multiset(bins[0])| == |bins[0]|;
    }
  }

  // ---------------------------------------------------------------- the packer's own objects

  class MicroBatchBin {
    var samples: seq<Item>
    var length: nat

    ghost predicate Valid()
      reads this
    {
      length == TotalLen(samples)
    }

    constructor FromSample(item: Item)
      ensures Valid() && samples == [item]
    {
      samples, length := [item], ItemLen(item);
      assert TotalLen([item]) == ItemLen(item) + TotalLen([item][1..]);
    }

    constructor FromContent(content: seq<Item>)
      ensures Valid() && samples == content
    {
      samples, length := content, TotalLen(content);
    }

    predicate Accepts(item: Item, maxSeqLen: nat)
      requires Valid() && samples != []
      reads this
      ensures Accepts(item, maxSeqLen) == CanAdd(samples, item, maxSeqLen)
    {
      CanAddTo(length, samples, item, maxSeqLen)
    }

    method Add(item: Item)
      requires Valid()
      modifies this
      ensures Valid() && samples == old(samples) + [item]
    {
      TotalLenAppend(samples, item);
      samples := samples + [item];
      length := length + ItemLen(item);
    }

    method SplitByWorkload(c: BinCost) returns (left: MicroBatchBin, right: MicroBatchBin)
      ensures fresh(left) && fresh(right) && left != right && left.Valid() && right.Valid()
      ensures left.samples == SplitBin(c, samples).left && right.samples == SplitBin(c, samples).right
    {
      var ranked := Ranked(c, samples);
      var leftSamples, rightSamples := [], [];
      var leftWork, rightWork := 0, 0;
      for i := 0 to |ranked|
        invariant Split(leftSamples, rightSamples, leftWork, rightWork) == SplitRanked(c, ranked[..i])
      {
        assert ranked[..i + 1][..i] == ranked[..i];
        var cost := ItemCost(c, ranked[i]);
        if leftWork <= rightWork {
          leftSamples, leftWork := leftSamples + [ranked[i]], leftWork + cost;
        } else {
          rightSamples, rightWork := rightSamples + [ranked[i]], rightWork + cost;
        }
      }
      assert ranked[..|ranked|] == ranked;
      left := new MicroBatchBin.FromContent(leftSamples);
      right := new MicroBatchBin.FromContent(rightSamples);
    }
  }

  /** The bin objects are distinct and hold the given contents. */
  ghost predicate Holds(bins: seq<MicroBatchBin>, contents: seq<seq<Item>>)
    reads bins
  {
    && |bins| == |contents|
    && (forall a, b :: 0 <= a < b < |bins| ==> bins[a] != bins[b])
    && forall b :: 0 <= b < |bins| ==> bins[b].Valid() && bins[b].samples == contents[b]
  }

  lemma FirstFitIndexUnique(bins: seq<seq<Item>>, item: Item, maxSeqLen: nat, at: nat)
    requires forall b :: 0 <= b < |bins| ==> bins[b] != []
    requires at <= |bins| && (at < |bins| ==> CanAdd(bins[at], item, maxSeqLen))
    requires forall b :: 0 <= b < at ==> !CanAdd(bins[b], item, maxSeqLen)
    ensures at == FirstFitIndex(bins, item, maxSeqLen)
  {
    hide CanAdd;
  }

  method FindBin(bins: seq<MicroBatchBin>, item: Item, maxSeqLen: nat, ghost contents: seq<seq<Item>>) returns (at: nat)
    requires Holds(bins, contents) && forall b :: 0 <= b < |contents| ==> contents[b] != []
    ensures at == FirstFitIndex(contents, item, maxSeqLen)
  {
    hide CanAdd;
    at := 0;
    while at < |bins| && !bins[at].Accepts(item, maxSeqLen)
      invariant at <= |bins|
      invariant forall b :: 0 <= b < at ==> !CanAdd(contents[b], item, maxSeqLen)
    {
      at := at + 1;
    }
    FirstFitIndexUnique(contents, item, maxSeqLen, at);
  }

  method PackFirstFit(items: seq<Item>, maxSeqLen: nat) returns (bins: seq<MicroBatchBin>)
    ensures Holds(bins, FirstFit(items, maxSeqLen)) && fresh(bins)
  {
    bins := [];
    ghost var contents: seq<seq<Item>> := [];
    for i := 0 to |items|
      invariant contents == FirstFit(items[..i], maxSeqLen)
      invariant Holds(bins, contents) && fresh(bins)
    {
      assert items[..i + 1][..i] == items[..i];
      var at := FindBin(bins, items[i], maxSeqLen, contents);
      contents := Place(contents, items[i], at);
      if at < |bins| {
        bins[at].Add(items[i]);
      } else {
        var bin := new MicroBatchBin.FromSample(items[i]);
        bins := bins + [bin];
      }
    }
    assert items[..|items|] == items;
  }

  method FindHeaviest(c: BinCost, bins: seq<MicroBatchBin>, ghost contents: seq<seq<Item>>) returns (heaviest: Option<nat>)
    requires Holds(bins, contents)
    ensures heaviest == Heaviest(c, contents)
  {
    hide Workload;
    heaviest := None;
    for b := 0 to |bins|
      invariant heaviest == Heaviest(c, contents[..b])
    {
      assert contents[..b + 1][..b] == contents[..b];
      var samples := bins[b].samples;
      if Splittable(samples) && (heaviest.None? || Workload(c, samples) >= Workload(c, bins[heaviest.value].samples)) {
        heaviest := Some(b);
      }
    }
    assert contents[..|contents|] == contents;
  }

  method ExpandBySplitting(c: BinCost, bins: seq<MicroBatchBin>, target: nat, ghost contents: seq<seq<Item>>) returns (expanded: seq<MicroBatchBin>)
    requires Holds(bins, contents)
    ensures Holds(expanded, Expand(c, contents, target))
    ensures forall b :: 0 <= b < |expanded| ==> expanded[b] in bins || fresh(expanded[b])
  {
    hide SplitBin;
    hide Heaviest;
    expanded := bins;
    ghost var now := contents;
    while |expanded| < target
      invariant Holds(expanded, now) && Expand(c, now, target) == Expand(c, contents, target)
      invariant forall b :: 0 <= b < |expanded| ==> expanded[b] in bins || fresh(expanded[b])
      decreases target - |expanded|
    {
      var heaviest := FindHeaviest(c, expanded, now);
      if heaviest.None? { return; }
      var left, right := expanded[heaviest.value].SplitByWorkload(c);
      now := SplitAt(c, now, heaviest.value);
      expanded := expanded[heaviest.value := left] + [right];
    }
  }

  // ---------------------------------------------------------------- packing a whole batch

  function Target(bins: nat, workers: nat): nat
    requires workers > 0
  {
    Max(((bins + workers - 1) / workers) * workers, workers)
  }

  function PackedBins(items: seq<Item>, maxSeqLen: nat, workers: nat, c: BinCost): seq<seq<Item>>
    requires workers > 0
  {
    var bins := FirstFit(StableSort(items, PackBefore), maxSeqLen);
    if workers > 1 then Expand(c, bins, Target(|bins|, workers)) else bins
  }

  /** The target is the least positive multiple of the worker count that is not below the bin count. */
  lemma TargetLeast(bins: nat, workers: nat)
    requires workers > 0
    ensures Target(bins, workers) >= bins && Target(bins, workers) > 0 && Target(bins, workers) % workers == 0
    ensures forall t: nat :: t >= bins && t > 0 && t % workers == 0 ==> Target(bins, workers) <= t
  {
    var q := (bins + workers - 1) / workers;
    DivisionUnique(q * workers, workers, q, 0);
    DivisionUnique(workers, workers, 1, 0);
    forall t: nat | t >= bins && t > 0 && t % workers == 0 ensures Target(bins, workers) <= t {
      MultipleAbove(bins, workers, q, t / workers);
    }
  }

  lemma MultipleAbove(bins: nat, workers: nat, q: nat, u: nat)
    requires workers > 0 && q * workers <= bins + workers - 1 && bins <= u * workers && 0 < u * workers
    ensures q * workers <= u * workers && workers <= u * workers
  {
    if u < q {
      MulSucc(u, workers);
      MulMonotone(workers, u + 1, q);
      assert false;
    }
    MulMonotone(workers, q, u);
    if u == 0 { assert false; }
    MulMonotone(workers, 1, u);
  }

  lemma PackedSource(items: seq<Item>, maxSeqLen: nat, b: nat, i: nat)
    requires b < |FirstFit(items, maxSeqLen)| && i < |FirstFit(items, maxSeqLen)[b]|
    ensures FirstFit(items, maxSeqLen)[b][i] in items
  {
    FirstFitKeepsItems(items, maxSeqLen);
    BagMember(FirstFit(items, maxSeqLen), b);
    assert FirstFit(items, maxSeqLen)[b][i] in multiset(FirstFit(items, maxSeqLen)[b]);
  }

  lemma PositiveBins(c: BinCost, items: seq<Item>, sorted: seq<Item>, maxSeqLen: nat)
    requires multiset(sorted) == multiset(items) && PositiveCosts(c, items)
    ensures AllPositive(c, FirstFit(sorted, maxSeqLen))
  {
    var bins := FirstFit(sorted, maxSeqLen);
    forall b, i | 0 <= b < |bins| && 0 <= i < |bins[b]| ensures ItemCost(c, bins[b][i]) > 0 {
      PackedSource(sorted, maxSeqLen, b, i);
      assert bins[b][i] in multiset(sorted);
      var j :| 0 <= j < |items| && items[j] == bins[b][i];
    }
    hide ItemCost;
  }

  lemma TextCapacityOf(items: seq<Item>, sorted: seq<Item>, maxSeqLen: nat)
    requires multiset(sorted) == multiset(items) && TextOnly(items)
    ensures Capacity(FirstFit(sorted, maxSeqLen)) == |items|
  {
    var bins: seq<seq<Item>> := FirstFit(sorted, maxSeqLen);
    forall b, i | 0 <= b < |bins| && 0 <= i < |bins[b]| ensures !IsMultimodal(bins[b][i].sample) {
      PackedSource(sorted, maxSeqLen, b, i);
      assert bins[b][i] in multiset(sorted);
      var j :| 0 <= j < |items| && items[j] == bins[b][i];
    }
    TextCapacity(bins);
    FirstFitKeepsItems(sorted, maxSeqLen);
    assert |multiset(items)| == |items|;
  }

  /**
   With positive costs the packer reaches its target exactly when the First Fit bins can be split that far,
   and a bin count divisible by the workers exactly then or when that capacity itself is divisible.
   */
  lemma PackedCount(items: seq<Item>, maxSeqLen: nat, workers: nat, c: BinCost)
    requires workers > 1 && PositiveCosts(c, items)
    ensures var bins := FirstFit(StableSort(items, PackBefore), maxSeqLen);
            var target, count := Target(|bins|, workers), |PackedBins(items, maxSeqLen, workers, c)|;
            && count == Min(target, Capacity(bins))
            && (count == target <==> Capacity(bins) >= target)
            && (count % workers == 0 <==> Capacity(bins) >= target || Capacity(bins) % workers == 0)
            && (TextOnly(items) ==> Capacity(bins) == |items|)
  {
    var sorted := StableSort(items, PackBefore);
    var bins := FirstFit(sorted, maxSeqLen);
    SortKeepsItems(items, PackBefore);
    hide StableSort;
    PositiveBins(c, items, sorted, maxSeqLen);
    if TextOnly(items) { TextCapacityOf(items, sorted, maxSeqLen); }
    hide FirstFit;
    hide AllPositive;
    hide PositiveCosts;
    hide TextOnly;
    TargetLeast(|bins|, workers);
    hide Target;
    ExpandCount(c, bins, Target(|bins|, workers));
    hide Expand;
    CapacityAtLeast(bins);
    hide Capacity;
  }

  /** For text samples: the target is reached exactly when there are enough samples. */
  lemma TextPackedCount(items: seq<Item>, maxSeqLen: nat, workers: nat, c: BinCost)
    requires workers > 1 && PositiveCosts(c, items) && TextOnly(items)
    ensures var target := Target(|FirstFit(StableSort(items, PackBefore), maxSeqLen)|, workers);
            var count := |PackedBins(items, maxSeqLen, workers, c)|;
            && (count == target <==> |items| >= target)
            && (count % workers == 0 <==> |items| >= target || |items| % workers == 0)
  {
    PackedCount(items, maxSeqLen, workers, c);
    hide PackedBins;
    hide FirstFit;
    hide StableSort;
    hide Target;
    hide PositiveCosts;
  }

  function MaterializeAll(bins: seq<seq<Item>>, numLoras: nat): PackResult<seq<MicroBatch>> {
    if bins == [] then Success([])
    else
      var n := |bins| - 1;
      match MaterializeAll(bins[..n], numLoras)
      case Failure(e) => Failure(e)
      case Success(batches) =>
        match MaterializeBin(bins[n], numLoras)
        case Failure(e) => Failure(e)
        case Success(b) => Success(batches + [b])
  }

  lemma {:induction false} MaterializeFailsEarly(bins: seq<seq<Item>>, i: nat, numLoras: nat)
    requires i <= |bins| && MaterializeAll(bins[..i], numLoras).Failure?
    ensures MaterializeAll(bins, numLoras) == MaterializeAll(bins[..i], numLoras)
    decreases |bins| - i
  {
    if i == |bins| {
      assert bins[..i] == bins;
    } else {
      assert bins[..i + 1][..i] == bins[..i];
      MaterializeFailsEarly(bins, i + 1, numLoras);
    }
  }

  method MaterializeBins(bins: seq<MicroBatchBin>, numLoras: nat, ghost contents: seq<seq<Item>>) returns (r: PackResult<seq<MicroBatch>>)
    requires Holds(bins, contents)
    ensures r == MaterializeAll(contents, numLoras)
  {
    hide MaterializeBin;
    var batches := [];
    for i := 0 to |bins|
      invariant MaterializeAll(contents[..i], numLoras) == Success(batches)
    {
      assert contents[..i + 1][..i] == contents[..i];
      var batch := Materialize(bins[i].samples, numLoras);
      if batch.Failure? {
        MaterializeFailsEarly(contents, i + 1, numLoras);
        return Failure(batch.error);
      }
      batches := batches + [batch.value];
    }
    assert contents[..|contents|] == contents;
    return Success(batches);
  }

  method PackIntoMicroBatches(items: seq<Item>, maxSeqLen: nat, numLoras: nat, workers: nat, c: BinCost) returns (r: PackResult<seq<MicroBatch>>)
    requires workers > 0
    ensures r == MaterializeAll(PackedBins(items, maxSeqLen, workers, c), numLoras)
  {
    hide FirstFit;
    hide Expand;
    hide MaterializeAll;
    var sorted := StableSort(items, PackBefore);
    var bins := PackFirstFit(sorted, maxSeqLen);
    if workers > 1 {
      bins := ExpandBySplitting(c, bins, Target(|bins|, workers), FirstFit(sorted, maxSeqLen));
    }
    r := MaterializeBins(bins, numLoras, PackedBins(items, maxSeqLen, workers, c));
  }
}
