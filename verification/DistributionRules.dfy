/** What padding and dummy batches consist of, token by token, and when a batch cannot be packed. */
module DistributionRules {
  import opened Wrappers
  import opened Sequences
  import opened MicroBatches
  import opened Materialization
  import opened Packing
  import opened PackingRules
  import opened Preparation
  import opened SampleRecords
  import opened Distribution

  // ---------------------------------------------------------------- padding

  /** The `k`-th padding token: masked out, at position `k`, with weight 0.0 in every loss that has weights. */
  function PaddingToken(m: MicroBatch, k: nat): TokenRecord {
    TokenRecord(1, false, 0.0, 0.0, k, 1.0, "", 0.0, if m.rlWeights.Some? then 0.0 else 1.0, 0.0, 0.0, 0)
  }

  lemma PaddedTail(m: MicroBatch, p: nat, k: nat)
    requires Paddable(m) && Aligned(m) && k < p
    ensures Aligned(Padded(m, p)) && Len(Padded(m, p)) == Len(m) + p
    ensures RecordAt(Padded(m, p), Len(m) + k) == PaddingToken(m, k)
  {
    PaddedAligned(m, p);
  }

  /** The last entry grows by `p`. */
  predicate LastGrows(s: seq<nat>, t: seq<nat>, p: nat) {
    s != [] && |t| == |s| && t[|s| - 1] == s[|s| - 1] + p && forall i :: 0 <= i < |s| - 1 ==> t[i] == s[i]
  }

  /** Padding extends the last sequence and the last LoRA, routes padding tokens to expert 0, and adds or drops no stream. */
  lemma PaddedRest(m: MicroBatch, p: nat)
    requires Paddable(m) && Aligned(m)
    ensures var q := Padded(m, p);
            && LastGrows(m.sequenceLengths, q.sequenceLengths, p) && LastGrows(m.seqLens, q.seqLens, p)
            && BothCarry(q.loraNumTokens, m.loraNumTokens)
            && (m.loraNumTokens.Some? ==> LastGrows(m.loraNumTokens.value, q.loraNumTokens.value, p))
            && BothCarry(q.refLogprobs, m.refLogprobs) && BothCarry(q.rlWeights, m.rlWeights) && BothCarry(q.ceWeights, m.ceWeights)
            && BothCarry(q.refKlWeights, m.refKlWeights) && BothCarry(q.mmTypeIds, m.mmTypeIds) && q.mmKwargs == m.mmKwargs
            && BothCarry(q.routedExperts, m.routedExperts)
            && (m.routedExperts.Some? ==>
                  && var r, s := m.routedExperts.value, q.routedExperts.value;
                     && s.dtype == r.dtype && s.layers == r.layers && s.topk == r.topk
                     && |s.rows| == |r.rows| + p && s.rows[..|r.rows|] == r.rows
                     && forall i :: |r.rows| <= i < |s.rows| ==>
                          |s.rows[i]| == r.layers * r.topk && forall j :: 0 <= j < |s.rows[i]| ==> s.rows[i][j] == 0)
  {
    var q := Padded(m, p);
    if m.routedExperts.Some? {
      var r, s := m.routedExperts.value, q.routedExperts.value;
      assert s.rows[..|r.rows|] == r.rows;
    }
  }

  /** A batch is padded to the least multiple that holds it, and left alone when it is one. */
  lemma PadsToLeast(m: MicroBatch, multiple: nat, n: nat)
    requires multiple > 0 && Ready(m, multiple)
    ensures Len(PadMicroBatch(m, multiple)) % multiple == 0 && Len(m) <= Len(PadMicroBatch(m, multiple))
    ensures n >= Len(m) && n % multiple == 0 ==> Len(PadMicroBatch(m, multiple)) <= n
    ensures Len(m) % multiple == 0 ==> PadMicroBatch(m, multiple) == m
  {
    PadOne(m, multiple);
    PaddingDivides(Len(m), multiple);
    if n >= Len(m) && n % multiple == 0 { LeastMultiple(Len(m), PaddingSize(Len(m), multiple), multiple, n); }
    if Len(m) % multiple == 0 { NoPadding(multiple); }
  }

  lemma NoPadding(multiple: nat)
    requires multiple > 0
    ensures (multiple - 0) % multiple == 0
  {
    DivisionUnique(multiple, multiple, 1, 0);
  }

  lemma LeastMultiple(len: nat, p: nat, multiple: nat, n: nat)
    requires multiple > 0 && p < multiple && (len + p) % multiple == 0 && n % multiple == 0 && len <= n
    ensures len + p <= n
  {
    var a, b := (len + p) / multiple, n / multiple;
    assert len + p == a * multiple && n == b * multiple;
    if b < a {
      MulMonotone(multiple, b + 1, a);
      MulSucc(b, multiple);
      assert false;
    }
  }

  // ---------------------------------------------------------------- dummies

  /** A dummy has its source's tokens, masked out and without loss weights, and everything else its source has. */
  lemma DummyTokens(source: MicroBatch)
    requires Aligned(source)
    ensures Aligned(DummyBatch(source)) && Len(DummyBatch(source)) == Len(source)
    ensures forall i :: 0 <= i < Len(source) ==>
              RecordAt(DummyBatch(source), i) == RecordAt(source, i).(masked := false, advantage := 0.0, rl := 1.0, ce := 0.0, refKl := 0.0)
    ensures var d := DummyBatch(source);
            && d.rlWeights == None && d.ceWeights == None && d.refKlWeights == None
            && d.refLogprobs == source.refLogprobs && d.mmTypeIds == source.mmTypeIds && d.mmKwargs == source.mmKwargs
            && d.routedExperts == source.routedExperts && d.loraNumTokens == source.loraNumTokens
            && d.sequenceLengths == source.sequenceLengths && d.seqLens == source.seqLens
  {
    DummyTrainsNothing(source);
  }

  /** A modality's group is its batches followed by as few dummies as make it divisible by the ranks. */
  lemma PaddedGroup(group: seq<MicroBatch>, workers: nat, n: nat)
    requires workers > 0
    ensures var padded := PadGroup(group, workers);
            && |group| <= |padded| && padded[..|group|] == group && |padded| % workers == 0
            && (n >= |group| && n % workers == 0 ==> |padded| <= n)
            && (forall i :: |group| <= i < |padded| ==> group != [] && padded[i] == DummyBatch(group[0]))
  {
    PadGroupDivides(group, workers);
    if group != [] && n >= |group| && n % workers == 0 {
      PaddingDivides(|group|, workers);
      LeastMultiple(|group|, PaddingSize(|group|, workers), workers, n);
    }
  }

  /** The two modality groups are all the batches, each with its own. */
  lemma {:induction false} ModalityGroups(batches: seq<MicroBatch>)
    ensures multiset(OfModality(batches, true)) + multiset(OfModality(batches, false)) == multiset(batches)
    ensures forall m :: m in OfModality(batches, true) ==> m.mmKwargs.Some?
    ensures forall m :: m in OfModality(batches, false) ==> m.mmKwargs.None?
  {
    if batches != [] {
      ModalityGroups(batches[1..]);
      assert batches == [batches[0]] + batches[1..];
    }
  }

  // ---------------------------------------------------------------- failures of a whole batch

  /** Some sample's LoRA is unknown, or two layouts of routed experts meet in a bin. */
  ghost predicate Unpackable(items: seq<Item>, bins: seq<seq<Item>>, numLoras: nat) {
    || (exists k :: 0 <= k < |items| && items[k].lora >= numLoras)
    || (exists b, i, j :: 0 <= b < |bins| && 0 <= i < j < |bins[b]| && !SameLayout(bins[b][i].sample.routedExperts, bins[b][j].sample.routedExperts))
  }

  lemma {:induction false} AllMaterialize(bins: seq<seq<Item>>, numLoras: nat)
    ensures MaterializeAll(bins, numLoras).Success? <==> forall b :: 0 <= b < |bins| ==> Materializable(bins[b], numLoras)
  {
    hide MaterializeBin;
    hide Materializable;
    if bins != [] {
      var n := |bins| - 1;
      AllMaterialize(bins[..n], numLoras);
      MaterializesExactly(bins[n], numLoras);
      assert forall b :: 0 <= b < n ==> bins[..n][b] == bins[b];
    }
  }

  lemma LorasInBins(items: seq<Item>, bins: seq<seq<Item>>, numLoras: nat)
    requires Bag(bins) == multiset(items)
    ensures (exists k :: 0 <= k < |items| && items[k].lora >= numLoras)
            <==> exists b, i :: 0 <= b < |bins| && 0 <= i < |bins[b]| && bins[b][i].lora >= numLoras
  {
    if k :| 0 <= k < |items| && items[k].lora >= numLoras {
      assert items[k] in multiset(items);
      BagHasMember(bins, items[k]);
      var b :| 0 <= b < |bins| && items[k] in bins[b];
      var i :| 0 <= i < |bins[b]| && bins[b][i] == items[k];
      assert bins[b][i].lora >= numLoras;
    }
    if b, i :| 0 <= b < |bins| && 0 <= i < |bins[b]| && bins[b][i].lora >= numLoras {
      assert bins[b][i] in bins[b];
      BagHasMember(bins, bins[b][i]);
      assert bins[b][i] in multiset(items);
      var k :| 0 <= k < |items| && items[k] == bins[b][i];
    }
  }

  lemma BinsMaterialize(items: seq<Item>, bins: seq<seq<Item>>, numLoras: nat)
    requires Bag(bins) == multiset(items)
    ensures MaterializeAll(bins, numLoras).Failure? <==> Unpackable(items, bins, numLoras)
  {
    AllMaterialize(bins, numLoras);
    LorasInBins(items, bins, numLoras);
    hide SameLayout;
    hide MaterializeAll;
    if !Unpackable(items, bins, numLoras) {
      forall b | 0 <= b < |bins| ensures Materializable(bins[b], numLoras) {
      }
    } else if exists b, i :: 0 <= b < |bins| && 0 <= i < |bins[b]| && bins[b][i].lora >= numLoras {
      var b, i :| 0 <= b < |bins| && 0 <= i < |bins[b]| && bins[b][i].lora >= numLoras;
      assert !Materializable(bins[b], numLoras);
    } else {
      var b, i, j :| 0 <= b < |bins| && 0 <= i < j < |bins[b]| && !SameLayout(bins[b][i].sample.routedExperts, bins[b][j].sample.routedExperts);
      assert !Materializable(bins[b], numLoras);
    }
  }

  /** A batch of preparable samples fails exactly when a LoRA is unknown or two layouts of routed experts meet in a bin. */
  lemma PackingFailsExactly(items: seq<Item>, samples: seq<TrainingSample>, loras: seq<nat>, seqLen: nat, workers: nat, numLoras: nat, c: BinCost)
    requires workers > 0 && ItemsOf(items, samples, loras, seqLen) && !SomeUnpreparable(samples, loras, seqLen)
    ensures PackingFails(samples, loras, seqLen, workers, numLoras, c)
            <==> Unpackable(items, PackedBins(items, seqLen, workers, c), numLoras)
  {
    PackedBinsItems(items, seqLen, workers, c);
    hide PackedBins;
    BinsMaterialize(items, PackedBins(items, seqLen, workers, c), numLoras);
    hide Unpackable;
    hide SomeUnpreparable;
    hide AllPrepared;
    hide MaterializeAll;
    forall more | ItemsOf(more, samples, loras, seqLen) ensures more == items { ItemsUnique(items, more, samples, loras, seqLen); }
  }

  /** The LoRAs are the ones given with the samples, so an unknown one fails the batch whatever is packed with it. */
  lemma UnknownLoraFails(items: seq<Item>, samples: seq<TrainingSample>, loras: seq<nat>, seqLen: nat, workers: nat, numLoras: nat, c: BinCost, k: nat)
    requires workers > 0 && ItemsOf(items, samples, loras, seqLen) && !SomeUnpreparable(samples, loras, seqLen)
    requires k < |samples| && k < |loras| && loras[k] >= numLoras
    ensures PackingFails(samples, loras, seqLen, workers, numLoras, c)
  {
    PackingFailsExactly(items, samples, loras, seqLen, workers, numLoras, c);
    hide PackingFails;
    hide SomeUnpreparable;
    hide PackedBins;
    hide Prepared;
    assert PreparedItem(items[k], loras[k], samples[k], seqLen);
  }
}
