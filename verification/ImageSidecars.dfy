/** Image tensors from the samples to the packed batch: the rows a tensor declares are the rows it has, and they match the grid. */
module ImageSidecars {
  import opened Wrappers
  import opened Sequences
  import opened MicroBatches
  import opened Materialization
  import opened Packing
  import opened Preparation
  import opened Distribution

  // ---------------------------------------------------------------- the samples of a bin carry the same tensors

  /** The tensor names of the first multimodal sample. */
  function SidecarKeys(content: seq<Item>): set<string> {
    if FirstMultimodal(content).Some? then FirstMultimodal(content).value.mmKwargs.value.Keys else {}
  }

  predicate KeysAgree(content: seq<Item>) {
    forall i :: 0 <= i < |content| && IsMultimodal(content[i].sample) ==> content[i].sample.mmKwargs.value.Keys == SidecarKeys(content)
  }

  lemma {:induction false} FirstMultimodalAppend(content: seq<Item>, item: Item)
    ensures FirstMultimodal(content + [item]) ==
            if FirstMultimodal(content).Some? then FirstMultimodal(content)
            else if IsMultimodal(item.sample) then Some(item.sample) else None
  {
    if content == [] {
      assert content + [item] == [item];
    } else {
      assert (content + [item])[1..] == content[1..] + [item];
      FirstMultimodalAppend(content[1..], item);
    }
  }

  lemma AddedKeysAgree(content: seq<Item>, item: Item, maxSeqLen: nat)
    requires content != [] && KeysAgree(content) && CanAdd(content, item, maxSeqLen)
    ensures KeysAgree(content + [item])
  {
    FirstMultimodalAppend(content, item);
    var after := content + [item];
    forall i | 0 <= i < |after| && IsMultimodal(after[i].sample)
      ensures after[i].sample.mmKwargs.value.Keys == SidecarKeys(after)
    {
      if i < |content| { assert after[i] == content[i]; }
    }
  }

  predicate AllKeysAgree(bins: seq<seq<Item>>) {
    forall b :: 0 <= b < |bins| ==> KeysAgree(bins[b])
  }

  lemma OneKeysAgree(item: Item)
    ensures KeysAgree([item])
  {
    FirstMultimodalAppend([], item);
    assert [] + [item] == [item];
  }

  lemma {:induction false} FirstFitKeysAgree(items: seq<Item>, maxSeqLen: nat)
    ensures AllKeysAgree(FirstFit(items, maxSeqLen))
  {
    hide KeysAgree;
    hide CanAdd;
    if items != [] {
      var n := |items| - 1;
      var bins := FirstFit(items[..n], maxSeqLen);
      FirstFitKeysAgree(items[..n], maxSeqLen);
      var i := FirstFitIndex(bins, items[n], maxSeqLen);
      if i < |bins| { AddedKeysAgree(bins[i], items[n], maxSeqLen); }
      OneKeysAgree(items[n]);
    }
  }

  lemma TextKeysAgree(part: seq<Item>, whole: seq<Item>)
    requires InBag(part, whole) && FirstMultimodal(whole).None?
    ensures KeysAgree(part)
  {
    TextParts(part, whole);
  }

  lemma {:induction false} ExpandKeysAgree(c: BinCost, bins: seq<seq<Item>>, target: nat)
    requires AllKeysAgree(bins)
    ensures AllKeysAgree(Expand(c, bins, target))
    decreases target - |bins|
  {
    if |bins| < target && Heaviest(c, bins).Some? {
      var i := Heaviest(c, bins).value;
      SplitBinItems(c, bins[i]);
      TextKeysAgree(SplitBin(c, bins[i]).left, bins[i]);
      TextKeysAgree(SplitBin(c, bins[i]).right, bins[i]);
      hide SplitBin;
      hide KeysAgree;
      ExpandKeysAgree(c, SplitAt(c, bins, i), target);
    }
  }

  lemma PackedKeysAgree(items: seq<Item>, maxSeqLen: nat, workers: nat, c: BinCost)
    requires workers > 0
    ensures AllKeysAgree(PackedBins(items, maxSeqLen, workers, c))
  {
    var bins := FirstFit(StableSort(items, PackBefore), maxSeqLen);
    FirstFitKeysAgree(StableSort(items, PackBefore), maxSeqLen);
    hide AllKeysAgree;
    if workers > 1 { ExpandKeysAgree(c, bins, Target(|bins|, workers)); }
  }

  // ---------------------------------------------------------------- from complete samples to complete batches

  predicate CompleteSample(s: TrainingSample) {
    s.mmKwargs.Some? ==> Complete(s.mmKwargs.value)
  }

  predicate CompleteItem(item: Item) {
    item.sample.mmKwargs.Some? ==> Complete(item.sample.mmKwargs.value)
  }

  predicate CompleteItems(content: seq<Item>) {
    forall i :: 0 <= i < |content| ==> CompleteItem(content[i])
  }

  lemma PreparedItemsComplete(items: seq<Item>, samples: seq<TrainingSample>, loras: seq<nat>, seqLen: nat)
    requires AllPrepared(items, samples, loras, seqLen) && forall i :: 0 <= i < |samples| ==> CompleteSample(samples[i])
    ensures CompleteItems(items)
  {
    hide Complete;
    hide Prepared;
    forall i | 0 <= i < |items| ensures CompleteItem(items[i]) {
      assert PreparedItem(items[i], loras[i], samples[i], seqLen) && CompleteSample(samples[i]);
      if items[i].sample.mmKwargs.Some? { PreparedComplete(samples[i], seqLen, items[i].sample); }
    }
  }

  lemma PackedItemsComplete(items: seq<Item>, maxSeqLen: nat, workers: nat, c: BinCost, b: nat)
    requires workers > 0 && CompleteItems(items) && b < |PackedBins(items, maxSeqLen, workers, c)|
    ensures CompleteItems(PackedBins(items, maxSeqLen, workers, c)[b])
  {
    hide PackedBins;
    hide CompleteItem;
    PackedBinsItems(items, maxSeqLen, workers, c);
    var bins := PackedBins(items, maxSeqLen, workers, c);
    BagMember(bins, b);
    forall i | 0 <= i < |bins[b]| ensures CompleteItem(bins[b][i]) {
      assert bins[b][i] in multiset(bins[b]);
      assert bins[b][i] in multiset(items);
    }
  }

  lemma AllCarry(content: seq<Item>, key: string)
    requires KeysAgree(content) && CompleteItems(content) && key in SidecarKeys(content)
    ensures CarryKey(content, key)
  {
    hide SidecarKeys;
    forall i | 0 <= i < |content| && content[i].sample.mmKwargs.Some?
      ensures key in content[i].sample.mmKwargs.value && WellShaped(content[i].sample.mmKwargs.value[key])
    {
      assert IsMultimodal(content[i].sample) && CompleteItem(content[i]);
    }
  }

  lemma PatchesConcat(a: seq<Row>, b: seq<Row>)
    ensures SumNat(PatchesPerImage(a + b)) == SumNat(PatchesPerImage(a)) + SumNat(PatchesPerImage(b))
  {
    hide Product;
    assert PatchesPerImage(a + b) == PatchesPerImage(a) + PatchesPerImage(b);
    SumNatConcat(PatchesPerImage(a), PatchesPerImage(b));
  }

  /** Stacking keeps enough rows for every image that the stacked grid names. */
  lemma {:induction false} StackedPatches(content: seq<Item>, key: string)
    requires CompleteItems(content) && CarryKey(content, GRID) && CarryKey(content, key) && key != GRID
    ensures SumNat(PatchesPerImage(KeyRows(content, GRID))) <= |KeyRows(content, key)|
  {
    hide PatchesPerImage;
    hide WellShaped;
    if content == [] {
      NoPatches();
    } else {
      var n := |content| - 1;
      var last := content[n].sample.mmKwargs;
      StackedPatches(content[..n], key);
      NoPatches();
      assert CompleteItem(content[n]);
      PatchesConcat(KeyRows(content[..n], GRID), if last.Some? && GRID in last.value then last.value[GRID].rows else []);
    }
  }

  lemma NoPatches()
    ensures SumNat(PatchesPerImage([])) == 0
  {
    assert PatchesPerImage([]) == [];
  }

  lemma {:induction false} PackedKeys(content: seq<Item>)
    requires KeysAgree(content)
    ensures PackKwargs(content).Some? <==> FirstMultimodal(content).Some?
    ensures PackKwargs(content).Some? ==> PackKwargs(content).value.Keys == SidecarKeys(content)
  {
    if content != [] {
      var n := |content| - 1;
      assert content == content[..n] + [content[n]];
      FirstMultimodalAppend(content[..n], content[n]);
      PrefixKeysAgree(content, n);
      PackedKeys(content[..n]);
      if IsMultimodal(content[n].sample) { assert content[n].sample.mmKwargs.value.Keys == SidecarKeys(content); }
    }
  }

  lemma PrefixKeysAgree(content: seq<Item>, n: nat)
    requires KeysAgree(content) && n + 1 == |content|
    ensures KeysAgree(content[..n])
  {
    assert content == content[..n] + [content[n]];
    FirstMultimodalAppend(content[..n], content[n]);
    forall i | 0 <= i < n && IsMultimodal(content[..n][i].sample)
      ensures content[..n][i].sample.mmKwargs.value.Keys == SidecarKeys(content[..n])
    {
      assert content[..n][i] == content[i];
    }
  }

  lemma PackedTensor(content: seq<Item>, key: string)
    requires KeysAgree(content) && CompleteItems(content) && PackKwargs(content).Some? && key in SidecarKeys(content)
    ensures key in PackKwargs(content).value && WellShaped(PackKwargs(content).value[key])
    ensures PackKwargs(content).value[key].rows == KeyRows(content, key)
  {
    AllCarry(content, key);
    KwargsStacked(content, key);
  }

  lemma PackedComplete(content: seq<Item>)
    requires KeysAgree(content) && CompleteItems(content) && PackKwargs(content).Some?
    ensures Complete(PackKwargs(content).value) && PackKwargs(content).value.Keys == SidecarKeys(content)
    ensures forall key :: key in PackKwargs(content).value ==> PackKwargs(content).value[key].rows == KeyRows(content, key)
  {
    PackedKeys(content);
    var packed := PackKwargs(content).value;
    forall key | key in packed ensures WellShaped(packed[key]) && packed[key].rows == KeyRows(content, key) {
      PackedTensor(content, key);
    }
    if GRID in packed {
      forall key | key in packed && key != GRID ensures SumNat(PatchesPerImage(packed[GRID].rows)) <= |packed[key].rows| {
        AllCarry(content, GRID);
        AllCarry(content, key);
        StackedPatches(content, key);
      }
    }
  }

  /**
   Samples with complete image tensors give packed batches with complete image tensors: under the names its
   samples carry, each holding the samples' rows in order, as many as it declares and as the grid asks for.
   */
  lemma SidecarsArrive(items: seq<Item>, samples: seq<TrainingSample>, loras: seq<nat>, seqLen: nat, workers: nat,
                       c: BinCost, numLoras: nat, b: nat)
    requires workers > 0 && ItemsOf(items, samples, loras, seqLen)
    requires forall i :: 0 <= i < |samples| ==> CompleteSample(samples[i])
    requires b < |PackedBins(items, seqLen, workers, c)| && MaterializeBin(PackedBins(items, seqLen, workers, c)[b], numLoras).Success?
    ensures var bin := PackedBins(items, seqLen, workers, c)[b];
            var kwargs := MaterializeBin(bin, numLoras).value.mmKwargs;
            && (kwargs.Some? <==> exists i :: 0 <= i < |bin| && IsMultimodal(bin[i].sample))
            && (kwargs.Some? ==>
                  && Complete(kwargs.value)
                  && (forall i :: 0 <= i < |bin| && IsMultimodal(bin[i].sample) ==> bin[i].sample.mmKwargs.value.Keys == kwargs.value.Keys)
                  && (forall key :: key in kwargs.value ==> kwargs.value[key].rows == KeyRows(bin, key)))
  {
    PreparedItemsComplete(items, samples, loras, seqLen);
    PackedItemsComplete(items, seqLen, workers, c, b);
    PackedKeysAgree(items, seqLen, workers, c);
    hide PackedBins;
    hide CompleteItems;
    hide ItemsOf;
    hide CompleteSample;
    var bin := PackedBins(items, seqLen, workers, c)[b];
    MaterializedKwargs(bin, numLoras);
    PackedKeys(bin);
    if PackKwargs(bin).Some? { PackedComplete(bin); }
    hide MaterializeBin;
    hide Complete;
    hide PackKwargs;
    hide KeyRows;
  }

  lemma MaterializedKwargs(content: seq<Item>, numLoras: nat)
    requires MaterializeBin(content, numLoras).Success?
    ensures MaterializeBin(content, numLoras).value.mmKwargs == PackKwargs(content)
  {
  }
}
