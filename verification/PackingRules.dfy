/** The rules of packing in the fields of the samples: their order, which bin takes each, and what shares a bin. */
module PackingRules {
  import opened Wrappers
  import opened Sequences
  import opened MicroBatches
  import opened Materialization
  import opened Packing

  // ---------------------------------------------------------------- the packing order

  /** Ascending LoRA, and within one LoRA the longest first. */
  predicate InPackingOrder(s: seq<Item>) {
    forall i, j :: 0 <= i < j < |s| ==> NotAfter(s[i], s[j])
  }

  predicate NotAfter(a: Item, b: Item) {
    a.lora < b.lora || (a.lora == b.lora && |a.sample.inputIds| >= |b.sample.inputIds|)
  }

  /** The items of one LoRA and length, in order. */
  function Alike(s: seq<Item>, lora: nat, length: nat): seq<Item> {
    if s == [] then []
    else (if s[0].lora == lora && |s[0].sample.inputIds| == length then [s[0]] else []) + Alike(s[1..], lora, length)
  }

  lemma {:induction false} InsertedInOrder(item: Item, s: seq<Item>)
    requires InPackingOrder(s)
    ensures InPackingOrder(InsertBefore(item, s, PackBefore))
  {
    if s != [] && !PackBefore(item, s[0]) {
      InsertedInOrder(item, s[1..]);
      var rest := InsertBefore(item, s[1..], PackBefore);
      InsertKeepsItems(item, s[1..], PackBefore);
      forall j | 0 <= j < |rest| ensures NotAfter(s[0], rest[j]) {
        assert rest[j] in multiset(rest);
        if rest[j] != item {
          var k :| 0 <= k < |s[1..]| && s[1..][k] == rest[j];
          assert s[k + 1] == rest[j];
        }
      }
    }
  }

  lemma {:induction false} InsertedLast(item: Item, s: seq<Item>, lora: nat, length: nat)
    requires InPackingOrder(s)
    ensures Alike(InsertBefore(item, s, PackBefore), lora, length)
            == Alike(s, lora, length) + if item.lora == lora && ItemLen(item) == length then [item] else []
  {
    var more := if item.lora == lora && ItemLen(item) == length then [item] else [];
    if s == [] {
      assert [item][1..] == [];
    } else if PackBefore(item, s[0]) {
      assert ([item] + s)[1..] == s;
      if more != [] { NoneAlike(s, lora, length); }
    } else {
      InsertedLast(item, s[1..], lora, length);
      var first := if s[0].lora == lora && ItemLen(s[0]) == length then [s[0]] else [];
      assert InsertBefore(item, s, PackBefore)[1..] == InsertBefore(item, s[1..], PackBefore);
      assert first + (Alike(s[1..], lora, length) + more) == (first + Alike(s[1..], lora, length)) + more;
    }
  }

  lemma {:induction false} NoneAlike(s: seq<Item>, lora: nat, length: nat)
    requires InPackingOrder(s) && s != [] && (lora < s[0].lora || (lora == s[0].lora && length > ItemLen(s[0])))
    ensures Alike(s, lora, length) == []
  {
    if |s| > 1 { NoneAlike(s[1..], lora, length); }
  }

  lemma {:induction false} AlikeAppend(s: seq<Item>, item: Item, lora: nat, length: nat)
    ensures Alike(s + [item], lora, length)
            == Alike(s, lora, length) + if item.lora == lora && ItemLen(item) == length then [item] else []
  {
    var more := if item.lora == lora && ItemLen(item) == length then [item] else [];
    if s == [] {
      assert [item][1..] == [] && s + [item] == [item];
    } else {
      AlikeAppend(s[1..], item, lora, length);
      var first := if s[0].lora == lora && ItemLen(s[0]) == length then [s[0]] else [];
      assert (s + [item])[1..] == s[1..] + [item];
      assert first + (Alike(s[1..], lora, length) + more) == (first + Alike(s[1..], lora, length)) + more;
    }
  }

  /** The packing order is reached without changing the order of samples that are alike. */
  lemma SortedForPacking(items: seq<Item>)
    ensures InPackingOrder(StableSort(items, PackBefore)) && multiset(StableSort(items, PackBefore)) == multiset(items)
    ensures forall lora, length :: Alike(StableSort(items, PackBefore), lora, length) == Alike(items, lora, length)
  {
    SortKeepsItems(items, PackBefore);
    SortOrders(items);
    forall lora, length ensures Alike(StableSort(items, PackBefore), lora, length) == Alike(items, lora, length) {
      SortStable(items, lora, length);
    }
  }

  lemma {:induction false} SortOrders(items: seq<Item>)
    ensures InPackingOrder(StableSort(items, PackBefore))
  {
    hide InPackingOrder;
    if items != [] {
      SortOrders(items[..|items| - 1]);
      InsertedInOrder(items[|items| - 1], StableSort(items[..|items| - 1], PackBefore));
    } else {
      NothingOrdered();
    }
  }

  lemma NothingOrdered()
    ensures InPackingOrder([])
  {
  }

  lemma {:induction false} SortStable(items: seq<Item>, lora: nat, length: nat)
    ensures Alike(StableSort(items, PackBefore), lora, length) == Alike(items, lora, length)
  {
    hide InPackingOrder;
    hide PackBefore;
    hide Alike;
    if items != [] {
      var n := |items| - 1;
      SortStable(items[..n], lora, length);
      SortOrders(items[..n]);
      InsertedLast(items[n], StableSort(items[..n], PackBefore), lora, length);
      AlikeAppend(items[..n], items[n], lora, length);
      assert items == items[..n] + [items[n]];
    }
  }

  // ---------------------------------------------------------------- which bin takes a sample

  /** The image tensors can be stacked: same names, types and shapes after the first dimension. */
  predicate Stackable(a: map<string, Tensor>, b: map<string, Tensor>) {
    && a.Keys == b.Keys
    && forall k :: k in a ==>
         && a[k].dtype == b[k].dtype && a[k].shape != [] && b[k].shape != []
         && a[k].shape[1..] == b[k].shape[1..]
  }

  predicate HasImageSample(content: seq<Item>) {
    exists i :: 0 <= i < |content| && content[i].sample.mmKwargs.Some?
  }

  /** The sample keeps the bin within the limit and agrees with its samples. */
  predicate Fits(content: seq<Item>, item: Item, maxSeqLen: nat) {
    && SumNat(Lengths(content)) + |item.sample.inputIds| <= maxSeqLen
    && (forall i :: 0 <= i < |content| ==> content[i].sample.routedExperts.Some? == item.sample.routedExperts.Some?)
    && (content != [] && (item.sample.mmKwargs.Some? || HasImageSample(content)) ==> content[0].lora == item.lora)
    && (forall i :: 0 <= i < |content| && content[i].sample.mmKwargs.Some? && item.sample.mmKwargs.Some? ==>
          Stackable(content[i].sample.mmKwargs.value, item.sample.mmKwargs.value))
  }

  predicate StackableAll(content: seq<Item>) {
    forall i, j :: 0 <= i < j < |content| && content[i].sample.mmKwargs.Some? && content[j].sample.mmKwargs.Some? ==>
      Stackable(content[i].sample.mmKwargs.value, content[j].sample.mmKwargs.value)
  }

  /** What the samples of one bin have in common. */
  predicate Agrees(content: seq<Item>, maxSeqLen: nat) {
    && content != []
    && (SumNat(Lengths(content)) <= maxSeqLen || |content| == 1)
    && UniformRouting(content) && StackableAll(content)
  }

  lemma CompatibleIs(a: map<string, Tensor>, b: map<string, Tensor>)
    ensures Stackable(a, b) <==> a.Keys == b.Keys && forall k :: k in a ==> CompatibleTensors(a[k], b[k])
  {
    forall k | k in a && k in b && a[k].shape != [] && b[k].shape != []
      ensures a[k].shape[1..] == b[k].shape[1..] ==> |a[k].shape| == |b[k].shape|
    {
      if a[k].shape[1..] == b[k].shape[1..] { assert |a[k].shape[1..]| == |b[k].shape[1..]|; }
    }
  }

  lemma StackableChain(a: map<string, Tensor>, b: map<string, Tensor>, c: map<string, Tensor>)
    requires Stackable(a, b) && Stackable(a, c)
    ensures Stackable(b, c)
  {
  }

  lemma {:induction false} FirstImage(content: seq<Item>) returns (f: nat)
    requires HasImageSample(content)
    ensures f < |content| && content[f].sample.mmKwargs.Some? && FirstMultimodal(content) == Some(content[f].sample)
    ensures forall i :: 0 <= i < f ==> content[i].sample.mmKwargs.None?
  {
    if content[0].sample.mmKwargs.Some? {
      f := 0;
    } else {
      var i :| 0 <= i < |content| && content[i].sample.mmKwargs.Some?;
      assert content[1..][i - 1] == content[i];
      f := FirstImage(content[1..]);
      f := f + 1;
    }
  }

  lemma StackableWithFirst(content: seq<Item>, f: nat, item: Item)
    requires StackableAll(content) && f < |content| && content[f].sample.mmKwargs.Some? && item.sample.mmKwargs.Some?
    requires forall i :: 0 <= i < f ==> content[i].sample.mmKwargs.None?
    requires Stackable(content[f].sample.mmKwargs.value, item.sample.mmKwargs.value)
    ensures forall i :: 0 <= i < |content| && content[i].sample.mmKwargs.Some? ==>
              Stackable(content[i].sample.mmKwargs.value, item.sample.mmKwargs.value)
  {
    hide Stackable;
    forall i | 0 <= i < |content| && content[i].sample.mmKwargs.Some?
      ensures Stackable(content[i].sample.mmKwargs.value, item.sample.mmKwargs.value)
    {
      if i > f { StackableChain(content[f].sample.mmKwargs.value, content[i].sample.mmKwargs.value, item.sample.mmKwargs.value); }
    }
  }

  lemma ImagesAccepted(content: seq<Item>, item: Item)
    requires StackableAll(content) && HasImageSample(content) && item.sample.mmKwargs.Some?
    ensures FirstMultimodal(content).Some?
    ensures (forall i :: 0 <= i < |content| && content[i].sample.mmKwargs.Some? ==>
               Stackable(content[i].sample.mmKwargs.value, item.sample.mmKwargs.value))
            <==> Stackable(FirstMultimodal(content).value.mmKwargs.value, item.sample.mmKwargs.value)
  {
    var f := FirstImage(content);
    if Stackable(content[f].sample.mmKwargs.value, item.sample.mmKwargs.value) { StackableWithFirst(content, f, item); }
    hide Stackable;
    hide StackableAll;
  }

  lemma {:induction false} LengthIs(content: seq<Item>)
    ensures TotalLen(content) == SumNat(Lengths(content))
  {
    if content != [] { LengthIs(content[1..]); }
  }

  /** A bin accepts exactly the samples that fit it. */
  lemma AcceptsExactly(content: seq<Item>, item: Item, maxSeqLen: nat)
    requires Agrees(content, maxSeqLen)
    ensures CanAdd(content, item, maxSeqLen) <==> Fits(content, item, maxSeqLen)
  {
    LengthIs(content);
    hide TotalLen;
    hide Lengths;
    hide SumNat;
    assert HasImageSample(content) <==> FirstMultimodal(content).Some?;
    if HasImageSample(content) && item.sample.mmKwargs.Some? {
      ImagesAccepted(content, item);
      CompatibleIs(FirstMultimodal(content).value.mmKwargs.value, item.sample.mmKwargs.value);
    }
    hide FirstMultimodal;
    hide Stackable;
    hide StackableAll;
    hide CompatibleTensors;
    assert (forall i :: 0 <= i < |content| ==> content[i].sample.routedExperts.Some? == item.sample.routedExperts.Some?)
           <==> content[0].sample.routedExperts.Some? == item.sample.routedExperts.Some?;
  }

  lemma AgreesAfter(content: seq<Item>, item: Item, maxSeqLen: nat)
    requires Agrees(content, maxSeqLen) && Fits(content, item, maxSeqLen)
    ensures Agrees(content + [item], maxSeqLen)
  {
    LengthIs(content);
    LengthIs(content + [item]);
    TotalLenAppend(content, item);
    hide Stackable;
    hide TotalLen;
    hide Lengths;
    hide SumNat;
  }

  lemma OneAgrees(item: Item, maxSeqLen: nat)
    ensures Agrees([item], maxSeqLen)
  {
  }

  ghost predicate AllAgree(bins: seq<seq<Item>>, maxSeqLen: nat) {
    forall b :: 0 <= b < |bins| ==> Agrees(bins[b], maxSeqLen)
  }

  /** A sample goes to the first bin it fits, and to a new one when it fits none. */
  ghost predicate FirstTaken(before: seq<seq<Item>>, item: Item, maxSeqLen: nat, after: seq<seq<Item>>) {
    || (exists b ::
          && 0 <= b < |before| && Fits(before[b], item, maxSeqLen)
          && (forall a :: 0 <= a < b ==> !Fits(before[a], item, maxSeqLen))
          && after == before[b := before[b] + [item]])
    || ((forall b :: 0 <= b < |before| ==> !Fits(before[b], item, maxSeqLen)) && after == before + [[item]])
  }

  lemma PlacedFirst(before: seq<seq<Item>>, item: Item, maxSeqLen: nat)
    requires AllAgree(before, maxSeqLen)
    ensures forall b :: 0 <= b < |before| ==> before[b] != []
    ensures FirstTaken(before, item, maxSeqLen, Place(before, item, FirstFitIndex(before, item, maxSeqLen)))
    ensures AllAgree(Place(before, item, FirstFitIndex(before, item, maxSeqLen)), maxSeqLen)
  {
    hide CanAdd;
    forall b | 0 <= b < |before| ensures before[b] != [] && (CanAdd(before[b], item, maxSeqLen) <==> Fits(before[b], item, maxSeqLen)) {
      AcceptsExactly(before[b], item, maxSeqLen);
    }
    var i := FirstFitIndex(before, item, maxSeqLen);
    if i < |before| { AgreesAfter(before[i], item, maxSeqLen); } else { OneAgrees(item, maxSeqLen); }
    hide Fits;
    hide Agrees;
  }

  lemma {:induction false} FirstFitAgrees(items: seq<Item>, maxSeqLen: nat)
    ensures AllAgree(FirstFit(items, maxSeqLen), maxSeqLen)
  {
    if items != [] {
      var n := |items| - 1;
      FirstFitAgrees(items[..n], maxSeqLen);
      hide AllAgree;
      PlacedFirst(FirstFit(items[..n], maxSeqLen), items[n], maxSeqLen);
    }
  }

  /** First Fit: each sample in turn goes to the first bin it fits, and to a new one only when it fits none. */
  lemma FirstFitTaken(items: seq<Item>, maxSeqLen: nat, n: nat)
    requires n < |items|
    ensures FirstTaken(FirstFit(items[..n], maxSeqLen), items[n], maxSeqLen, FirstFit(items[..n + 1], maxSeqLen))
  {
    FirstFitAgrees(items[..n], maxSeqLen);
    PlacedFirst(FirstFit(items[..n], maxSeqLen), items[n], maxSeqLen);
    hide FirstTaken;
    hide AllAgree;
    assert items[..n + 1][..n] == items[..n];
  }

  // ---------------------------------------------------------------- a bin with images has one LoRA

  predicate OneLora(content: seq<Item>) {
    forall i, j :: 0 <= i < |content| && 0 <= j < |content| ==> content[i].lora == content[j].lora
  }

  predicate RisingLoras(content: seq<Item>) {
    forall i, j :: 0 <= i < j < |content| ==> content[i].lora <= content[j].lora
  }

  /** The bins so far hold no LoRA above the next sample's. */
  predicate UpTo(content: seq<Item>, lora: nat) {
    forall i :: 0 <= i < |content| ==> content[i].lora <= lora
  }

  predicate LoraBin(content: seq<Item>, lora: nat) {
    content != [] && RisingLoras(content) && UpTo(content, lora) && (HasImageSample(content) ==> OneLora(content))
  }

  lemma LoraAfter(content: seq<Item>, item: Item, maxSeqLen: nat)
    requires LoraBin(content, item.lora) && Fits(content, item, maxSeqLen)
    ensures LoraBin(content + [item], item.lora)
  {
    var after := content + [item];
    if HasImageSample(after) {
      if !HasImageSample(content) { assert item.sample.mmKwargs.Some?; }
      assert content[0].lora == item.lora;
      forall i | 0 <= i < |after| ensures after[i].lora == item.lora {
        if 0 < i < |content| { assert content[0].lora <= content[i].lora; }
      }
    }
    hide Stackable;
  }

  lemma {:induction false} FirstFitLoras(items: seq<Item>, maxSeqLen: nat, lora: nat)
    requires RisingLoras(items) && UpTo(items, lora)
    ensures forall b :: 0 <= b < |FirstFit(items, maxSeqLen)| ==> LoraBin(FirstFit(items, maxSeqLen)[b], lora)
  {
    if items != [] {
      var n := |items| - 1;
      var before, after := FirstFit(items[..n], maxSeqLen), FirstFit(items, maxSeqLen);
      FirstFitLoras(items[..n], maxSeqLen, items[n].lora);
      FirstFitTaken(items, maxSeqLen, n);
      assert items[..n + 1] == items;
      hide FirstFit;
      hide Fits;
      forall b | 0 <= b < |after| ensures LoraBin(after[b], lora) {
        if b < |before| && after[b] == before[b] {
          LoraHigher(before[b], items[n].lora, lora);
        } else if b < |before| {
          LoraAfter(before[b], items[n], maxSeqLen);
          LoraHigher(after[b], items[n].lora, lora);
        }
      }
    }
  }

  lemma LoraHigher(content: seq<Item>, lora: nat, higher: nat)
    requires LoraBin(content, lora) && lora <= higher
    ensures LoraBin(content, higher)
  {
  }

  /** Within the limit or a single sample; alike in routed experts; images stack, and with images there is one LoRA. */
  predicate SoundBin(content: seq<Item>, maxSeqLen: nat) {
    && (SumNat(Lengths(content)) <= maxSeqLen || |content| <= 1)
    && UniformRouting(content) && StackableAll(content) && (HasImageSample(content) ==> OneLora(content))
  }

  ghost predicate AllSoundBins(bins: seq<seq<Item>>, maxSeqLen: nat) {
    forall b :: 0 <= b < |bins| ==> SoundBin(bins[b], maxSeqLen)
  }

  lemma FirstFitSound(items: seq<Item>, maxSeqLen: nat)
    ensures AllSoundBins(FirstFit(StableSort(items, PackBefore), maxSeqLen), maxSeqLen)
  {
    var sorted := StableSort(items, PackBefore);
    SortedForPacking(items);
    var lora := if sorted == [] then 0 else sorted[|sorted| - 1].lora;
    assert RisingLoras(sorted) && UpTo(sorted, lora);
    FirstFitLoras(sorted, maxSeqLen, lora);
    FirstFitAgrees(sorted, maxSeqLen);
    hide StableSort;
    hide FirstFit;
    hide StackableAll;
    hide HasImageSample;
    hide OneLora;
  }

  lemma TextSound(part: seq<Item>, whole: seq<Item>, maxSeqLen: nat)
    requires InBag(part, whole) && SoundBin(whole, maxSeqLen) && !HasImageSample(whole)
    requires TotalLen(part) <= TotalLen(whole) && |part| <= |whole|
    ensures SoundBin(part, maxSeqLen)
  {
    LengthIs(part);
    LengthIs(whole);
    hide TotalLen;
    hide Lengths;
    hide SumNat;
    hide Stackable;
    forall i | 0 <= i < |part| ensures part[i].sample.mmKwargs.None? {
      var j :| 0 <= j < |whole| && whole[j] == part[i];
    }
  }

  lemma {:induction false} ExpandSound(c: BinCost, bins: seq<seq<Item>>, target: nat, maxSeqLen: nat)
    requires AllSoundBins(bins, maxSeqLen)
    ensures AllSoundBins(Expand(c, bins, target), maxSeqLen)
    decreases target - |bins|
  {
    if |bins| < target && Heaviest(c, bins).Some? {
      var i := Heaviest(c, bins).value;
      var left, right := SplitBin(c, bins[i]).left, SplitBin(c, bins[i]).right;
      assert !HasImageSample(bins[i]);
      SplitBinItems(c, bins[i]);
      RankedTotal(c, bins[i]);
      SplitRankedTotals(c, Ranked(c, bins[i]));
      TextSound(left, bins[i], maxSeqLen);
      TextSound(right, bins[i], maxSeqLen);
      hide SoundBin;
      hide SplitBin;
      hide HasImageSample;
      ExpandSound(c, SplitAt(c, bins, i), target, maxSeqLen);
    }
  }

  /** Whatever the samples, what shares a micro batch may share it. */
  lemma PackedSound(items: seq<Item>, maxSeqLen: nat, workers: nat, c: BinCost)
    requires workers > 0
    ensures AllSoundBins(PackedBins(items, maxSeqLen, workers, c), maxSeqLen)
  {
    FirstFitSound(items, maxSeqLen);
    hide AllSoundBins;
    var bins := FirstFit(StableSort(items, PackBefore), maxSeqLen);
    hide FirstFit;
    hide StableSort;
    if workers > 1 { ExpandSound(c, bins, Target(|bins|, workers), maxSeqLen); }
    hide Expand;
    hide Target;
  }

  // ---------------------------------------------------------------- which bin is split

  predicate CanSplit(content: seq<Item>) {
    |content| > 1 && !HasImageSample(content)
  }

  /** The heaviest bin of several text samples, and the last of equally heavy ones. */
  ghost predicate IsHeaviest(c: BinCost, bins: seq<seq<Item>>, i: nat) {
    && i < |bins| && CanSplit(bins[i])
    && forall b :: 0 <= b < |bins| && CanSplit(bins[b]) ==>
         c.Of(Lengths(bins[b])) < c.Of(Lengths(bins[i])) || (c.Of(Lengths(bins[b])) == c.Of(Lengths(bins[i])) && b <= i)
  }

  lemma SplitIs(content: seq<Item>)
    ensures Splittable(content) <==> CanSplit(content)
  {
  }

  lemma {:induction false} HeaviestIs(c: BinCost, bins: seq<seq<Item>>)
    ensures Heaviest(c, bins).Some? <==> exists b :: 0 <= b < |bins| && CanSplit(bins[b])
    ensures Heaviest(c, bins).Some? ==> IsHeaviest(c, bins, Heaviest(c, bins).value)
  {
    hide BinCost.Of;
    if bins != [] {
      var n := |bins| - 1;
      HeaviestIs(c, bins[..n]);
      SplitIs(bins[n]);
      hide CanSplit;
      hide Splittable;
      var r, before := Heaviest(c, bins), Heaviest(c, bins[..n]);
      if b :| 0 <= b < |bins| && CanSplit(bins[b]) {
        if b < n { assert CanSplit(bins[..n][b]); }
      }
      if before.Some? { assert CanSplit(bins[before.value]) && bins[..n][before.value] == bins[before.value]; }
      if r.Some? {
        forall b | 0 <= b < |bins| && CanSplit(bins[b])
          ensures c.Of(Lengths(bins[b])) < c.Of(Lengths(bins[r.value])) || (c.Of(Lengths(bins[b])) == c.Of(Lengths(bins[r.value])) && b <= r.value)
        {
          if b < n { assert CanSplit(bins[..n][b]) && bins[..n][b] == bins[b]; }
        }
      }
    }
  }

  /** Below the target the heaviest bin is split, unless no bin can be. */
  lemma SplitsHeaviest(c: BinCost, bins: seq<seq<Item>>, target: nat)
    ensures |bins| < target && (exists b :: 0 <= b < |bins| && CanSplit(bins[b])) ==>
              exists i: nat :: IsHeaviest(c, bins, i) && Expand(c, bins, target) == Expand(c, SplitAt(c, bins, i), target)
    ensures |bins| >= target || !(exists b :: 0 <= b < |bins| && CanSplit(bins[b])) ==> Expand(c, bins, target) == bins
  {
    HeaviestIs(c, bins);
    hide CanSplit;
    hide Heaviest;
    hide SplitAt;
  }

  // ---------------------------------------------------------------- counts, presence and failure

  /** The tokens of one LoRA. */
  function LoraTokens(content: seq<Item>, lora: nat): nat {
    if content == [] then 0
    else LoraTokens(content[..|content| - 1], lora)
         + if content[|content| - 1].lora == lora then |content[|content| - 1].sample.inputIds| else 0
  }

  /** Each LoRA's count is the number of its tokens. */
  lemma {:induction false} LoraCountsEach(content: seq<Item>, numLoras: nat, lora: nat)
    requires lora < numLoras
    ensures LoraCounts(content, numLoras)[lora] == LoraTokens(content, lora)
  {
    if content != [] { LoraCountsEach(content[..|content| - 1], numLoras, lora); }
  }

  /** A packed batch carries an optional stream exactly when one of its samples does, and its lengths are theirs. */
  lemma PackedCarries(content: seq<Item>, numLoras: nat)
    requires MaterializeBin(content, numLoras).Success?
    ensures var p := MaterializeBin(content, numLoras).value;
            && (p.refLogprobs.Some? <==> exists i :: 0 <= i < |content| && content[i].sample.refLogprobs.Some?)
            && (p.rlWeights.Some? <==> exists i :: 0 <= i < |content| && content[i].sample.rlWeights.Some?)
            && (p.ceWeights.Some? <==> exists i :: 0 <= i < |content| && content[i].sample.ceWeights.Some?)
            && (p.refKlWeights.Some? <==> exists i :: 0 <= i < |content| && content[i].sample.refKlWeights.Some?)
            && (p.mmTypeIds.Some? <==> exists i :: 0 <= i < |content| && content[i].sample.mmTypeIds.Some?)
            && (p.routedExperts.Some? <==> exists i :: 0 <= i < |content| && content[i].sample.routedExperts.Some?)
            && |p.sequenceLengths| == |content|
            && (forall i :: 0 <= i < |content| ==> p.sequenceLengths[i] == |content[i].sample.inputIds|)
            && p.loraNumTokens.Some? && |p.loraNumTokens.value| == numLoras
            && (forall lora :: 0 <= lora < numLoras ==> p.loraNumTokens.value[lora] == LoraTokens(content, lora))
  {
    RoutedRows(content, numLoras);
    LengthsAre(content);
    forall lora | 0 <= lora < numLoras ensures LoraCounts(content, numLoras)[lora] == LoraTokens(content, lora) {
      LoraCountsEach(content, numLoras, lora);
    }
    hide PackRouted;
    hide Gather;
    hide LoraTokens;
  }

  lemma {:induction false} LengthsAre(content: seq<Item>)
    ensures forall i :: 0 <= i < |content| ==> Lengths(content)[i] == |content[i].sample.inputIds|
  {
    if content != [] {
      LengthsAre(content[1..]);
      forall i | 0 <= i < |content| ensures Lengths(content)[i] == |content[i].sample.inputIds| {
        if i > 0 { assert content[i] == content[1..][i - 1]; }
      }
    }
  }

  predicate LayoutLike(packed: map<string, Tensor>, kwargs: map<string, Tensor>) {
    packed.Keys == kwargs.Keys
    && forall k :: k in packed ==>
         packed[k].dtype == kwargs[k].dtype && packed[k].shape != [] && kwargs[k].shape != [] && packed[k].shape[1..] == kwargs[k].shape[1..]
  }

  predicate PackedLike(content: seq<Item>, packed: Option<map<string, Tensor>>) {
    && (packed.Some? <==> HasImageSample(content))
    && forall i :: 0 <= i < |content| && packed.Some? && content[i].sample.mmKwargs.Some? ==>
         LayoutLike(packed.value, content[i].sample.mmKwargs.value)
  }

  predicate Shaped(kwargs: map<string, Tensor>) {
    forall k :: k in kwargs ==> kwargs[k].shape != []
  }

  predicate ShapedAll(content: seq<Item>) {
    forall i :: 0 <= i < |content| && content[i].sample.mmKwargs.Some? ==> Shaped(content[i].sample.mmKwargs.value)
  }

  lemma StackLike(a: map<string, Tensor>, b: map<string, Tensor>, c: map<string, Tensor>)
    requires LayoutLike(a, c) && LayoutLike(a, b)
    ensures LayoutLike(StackKwargs(a, b), c) && LayoutLike(StackKwargs(a, b), b)
  {
  }

  lemma LikeThrough(a: map<string, Tensor>, b: map<string, Tensor>, c: map<string, Tensor>)
    requires LayoutLike(a, b) && Stackable(b, c)
    ensures LayoutLike(a, c)
  {
  }

  lemma LikeSelf(a: map<string, Tensor>)
    requires Shaped(a)
    ensures LayoutLike(a, a)
  {
  }

  /** The stacked tensors have the names, types and trailing dimensions that all image samples of the bin share. */
  lemma {:induction false} StackedLayout(content: seq<Item>)
    requires StackableAll(content) && ShapedAll(content)
    ensures PackedLike(content, PackKwargs(content))
  {
    hide LayoutLike;
    hide Stackable;
    hide Shaped;
    hide StackKwargs;
    if content != [] {
      var n := |content| - 1;
      StackedLayout(content[..n]);
      assert forall i :: 0 <= i < n ==> content[..n][i] == content[i];
      var before, last := PackKwargs(content[..n]), content[n].sample.mmKwargs;
      if last.Some? {
        LikeSelf(last.value);
        if before.Some? {
          var f :| 0 <= f < n && content[..n][f].sample.mmKwargs.Some?;
          LikeThrough(before.value, content[f].sample.mmKwargs.value, last.value);
          forall i | 0 <= i < n && content[i].sample.mmKwargs.Some?
            ensures LayoutLike(StackKwargs(before.value, last.value), content[i].sample.mmKwargs.value)
          {
            StackLike(before.value, last.value, content[i].sample.mmKwargs.value);
          }
          StackLike(before.value, last.value, last.value);
        }
      }
    }
  }

  /** The two samples' routed experts have the same layout. */
  predicate SameLayout(a: Option<RoutedExperts>, b: Option<RoutedExperts>) {
    a.Some? && b.Some? ==> a.value.dtype == b.value.dtype && a.value.layers == b.value.layers && a.value.topk == b.value.topk
  }

  /** Every sample has a known LoRA, and all routed experts have one layout. */
  predicate Materializable(content: seq<Item>, numLoras: nat) {
    && (forall i :: 0 <= i < |content| ==> content[i].lora < numLoras)
    && forall i, j :: 0 <= i < j < |content| ==> SameLayout(content[i].sample.routedExperts, content[j].sample.routedExperts)
  }

  ghost predicate LayoutOf(content: seq<Item>, routed: Option<RoutedExperts>) {
    && (routed.None? <==> forall i :: 0 <= i < |content| ==> content[i].sample.routedExperts.None?)
    && forall i :: 0 <= i < |content| ==> SameLayout(content[i].sample.routedExperts, routed)
  }

  lemma {:induction false} RoutedLayout(content: seq<Item>, numLoras: nat)
    ensures PackRouted(content, numLoras).Success? <==> Materializable(content, numLoras)
    ensures PackRouted(content, numLoras).Success? ==> LayoutOf(content, PackRouted(content, numLoras).value)
  {
    if content != [] {
      var n := |content| - 1;
      RoutedLayout(content[..n], numLoras);
      var before, last := PackRouted(content[..n], numLoras), content[n];
      if before.Success? {
        LayoutStep(content, before.value, numLoras);
      } else {
        if Materializable(content, numLoras) { MaterializablePrefix(content, numLoras, n); }
      }
    }
  }

  lemma MaterializablePrefix(content: seq<Item>, numLoras: nat, n: nat)
    requires Materializable(content, numLoras) && n <= |content|
    ensures Materializable(content[..n], numLoras)
  {
    hide SameLayout;
  }

  lemma LayoutStep(content: seq<Item>, routed: Option<RoutedExperts>, numLoras: nat)
    requires content != [] && LayoutOf(content[..|content| - 1], routed) && Materializable(content[..|content| - 1], numLoras)
    ensures var last := content[|content| - 1]; var r := AppendRouted(routed, last.sample.routedExperts);
            && (Materializable(content, numLoras) <==> r.Success? && last.lora < numLoras)
            && (r.Success? ==> LayoutOf(content, r.value))
  {
    var n := |content| - 1;
    var last := content[n];
    var r := AppendRouted(routed, last.sample.routedExperts);
    assert forall i :: 0 <= i < n ==> content[..n][i] == content[i];
    if routed.Some? {
      var k :| 0 <= k < n && content[k].sample.routedExperts.Some?;
      assert SameLayout(content[k].sample.routedExperts, routed);
      if Materializable(content, numLoras) { assert SameLayout(content[k].sample.routedExperts, last.sample.routedExperts); }
    }
  }

  /** A bin cannot be materialised exactly when a LoRA is unknown or two layouts of routed experts meet. */
  lemma MaterializesExactly(content: seq<Item>, numLoras: nat)
    ensures MaterializeBin(content, numLoras).Success? <==> Materializable(content, numLoras)
  {
    RoutedLayout(content, numLoras);
    hide PackRouted;
    hide Materializable;
  }
}
