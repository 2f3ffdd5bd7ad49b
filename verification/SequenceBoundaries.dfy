/** Cumulative sequence lengths of a packed batch, derived from position ids or from stored lengths. */
module SequenceBoundaries {
  import opened Wrappers
  import opened Sequences
  import opened MicroBatches
  import opened Materialization
  import opened Packing
  import opened Preparation
  import opened Distribution

  /** Indices, counted from `base`, where a position id is zero. */
  function ZerosFrom(positions: seq<nat>, base: nat): seq<nat> {
    if positions == [] then []
    else if positions[0] == 0 then [base] + ZerosFrom(positions[1..], base + 1)
    else ZerosFrom(positions[1..], base + 1)
  }

  function UniqueConsecutive(s: seq<nat>): seq<nat> {
    if |s| <= 1 then s
    else if s[0] == s[1] then UniqueConsecutive(s[1..])
    else [s[0]] + UniqueConsecutive(s[1..])
  }

  function Starts(positions: seq<nat>): seq<nat> {
    UniqueConsecutive([0] + ZerosFrom(positions, 0))
  }

  function Differences(starts: seq<nat>, total: nat): seq<int> {
    if starts == [] then []
    else [(if |starts| > 1 then starts[1] else total) - starts[0]] + Differences(starts[1..], total)
  }

  function CumSum(lens: seq<int>, base: int): seq<int> {
    if lens == [] then [] else [base + lens[0]] + CumSum(lens[1..], base + lens[0])
  }

  function SeqlensOf(positions: seq<nat>): seq<int> {
    Differences(Starts(positions), |positions|)
  }

  /** `get_cu_seqlens_from_position_ids`; an empty tensor is refused. */
  function CuFromPositions(positions: seq<nat>): Option<seq<int>> {
    if positions == [] then None else Some([0] + CumSum(SeqlensOf(positions), 0))
  }

  /** `get_cu_seqlens_from_seq_lens` with the expected token count. */
  function CuFromSeqLens(lens: seq<nat>, total: nat): Option<seq<int>> {
    if lens == [] || (exists i :: 0 <= i < |lens| && lens[i] == 0) || SumNat(lens) != total then None
    else Some([0] + CumSum(lens, 0))
  }

  // ---------------------------------------------------------------- boundaries from stored lengths

  lemma {:induction false} CumSumSteps(lens: seq<int>, base: int)
    ensures |CumSum(lens, base)| == |lens|
    ensures forall i :: 0 <= i < |lens| ==> CumSum(lens, base)[i] == lens[i] + if i == 0 then base else CumSum(lens, base)[i - 1]
  {
    if lens != [] {
      CumSumSteps(lens[1..], base + lens[0]);
      var all, rest := CumSum(lens, base), CumSum(lens[1..], base + lens[0]);
      forall i | 0 <= i < |lens| ensures all[i] == lens[i] + if i == 0 then base else all[i - 1] {
        if i > 0 { assert all[i] == rest[i - 1] && lens[i] == lens[1..][i - 1]; }
        if i > 1 { assert all[i - 1] == rest[i - 2]; }
      }
    }
  }

  lemma {:induction false} CumSumEnds(lens: seq<nat>, base: int)
    requires lens != []
    ensures |CumSum(lens, base)| == |lens| && CumSum(lens, base)[|lens| - 1] == base + SumNat(lens)
  {
    CumSumSteps(lens, base);
    if |lens| > 1 {
      CumSumEnds(lens[1..], base + lens[0]);
      assert CumSum(lens, base)[|lens| - 1] == CumSum(lens[1..], base + lens[0])[|lens| - 2];
    } else {
      assert SumNat(lens) == lens[0] + SumNat(lens[1..]);
    }
  }

  /** Lengths are refused when there is none, one is zero or they do not add up; otherwise the boundaries rise by them from 0 to the total. */
  lemma LengthsExactly(lens: seq<nat>, total: nat)
    ensures var r := CuFromSeqLens(lens, total);
            && (r.None? <==> lens == [] || 0 in lens || SumNat(lens) != total)
            && (r.Some? ==>
                  && |r.value| == |lens| + 1 && r.value[0] == 0 && r.value[|lens|] == total
                  && forall i :: 0 <= i < |lens| ==> r.value[i + 1] - r.value[i] == lens[i] > 0)
  {
    CumSumSteps(lens, 0);
    if lens != [] { CumSumEnds(lens, 0); }
  }

  // ---------------------------------------------------------------- what the boundaries are

  predicate Ascends(s: seq<nat>) {
    forall i, j :: 0 <= i < j < |s| ==> s[i] < s[j]
  }

  lemma {:induction false} ZerosAscend(positions: seq<nat>, base: nat)
    ensures Ascends(ZerosFrom(positions, base))
    ensures forall z: nat :: z in ZerosFrom(positions, base) <==> base <= z < base + |positions| && positions[z - base] == 0
  {
    if positions != [] {
      ZerosAscend(positions[1..], base + 1);
      var rest, all := ZerosFrom(positions[1..], base + 1), ZerosFrom(positions, base);
      forall i, j | 0 <= i < j < |all| ensures all[i] < all[j] {
        if positions[0] == 0 { assert all[j] in rest; }
      }
    }
  }

  lemma PrependZero(zeros: seq<nat>)
    requires Ascends(zeros) && (zeros == [] || zeros[0] > 0)
    ensures Ascends([0] + zeros)
  {
    forall i, j | 0 <= i < j < |zeros| + 1 ensures ([0] + zeros)[i] < ([0] + zeros)[j] {
      if i == 0 && j > 1 { assert zeros[0] < zeros[j - 1]; }
    }
  }

  lemma StartsOf(zeros: seq<nat>)
    requires Ascends(zeros)
    ensures UniqueConsecutive([0] + zeros) == if zeros != [] && zeros[0] == 0 then zeros else [0] + zeros
  {
    hide Ascends;
    if zeros != [] && zeros[0] == 0 {
      assert ([0] + zeros)[1..] == zeros;
      AlreadyUnique(zeros);
    } else {
      PrependZero(zeros);
      AlreadyUnique([0] + zeros);
    }
  }

  /** The first start is 0 whether or not the first position id is. */
  lemma StartsAscend(positions: seq<nat>)
    ensures Starts(positions) != [] && Starts(positions)[0] == 0 && Ascends(Starts(positions))
    ensures forall z: nat :: z in Starts(positions) <==> z == 0 || (z < |positions| && positions[z] == 0)
  {
    hide UniqueConsecutive;
    hide Ascends;
    var zeros := ZerosFrom(positions, 0);
    ZerosAscend(positions, 0);
    StartsOf(zeros);
    if zeros == [] || zeros[0] > 0 { PrependZero(zeros); }
  }

  lemma {:induction false} AlreadyUnique(s: seq<nat>)
    requires Ascends(s)
    ensures UniqueConsecutive(s) == s
  {
    if |s| > 1 { AlreadyUnique(s[1..]); }
  }

  lemma {:induction false} CumSumUndoesDifferences(starts: seq<nat>, total: nat)
    requires starts != []
    ensures CumSum(Differences(starts, total), starts[0]) == starts[1..] + [total]
  {
    if |starts| > 1 { CumSumUndoesDifferences(starts[1..], total); }
  }

  /** For any position ids, shards included, a boundary stands at 0, at the end, and at each zero in between. */
  lemma BoundariesExact(positions: seq<nat>)
    requires positions != []
    ensures CuFromPositions(positions) == Some(Starts(positions) + [|positions|])
    ensures Ascends(Starts(positions) + [|positions|])
    ensures forall z :: 0 < z < |positions| ==> (z in Starts(positions) + [|positions|] <==> positions[z] == 0)
  {
    var starts := Starts(positions);
    StartsAscend(positions);
    CumSumUndoesDifferences(starts, |positions|);
    assert [0] + (starts[1..] + [|positions|]) == starts + [|positions|];
    forall i | 0 <= i < |starts| ensures starts[i] < |positions| {
      assert starts[i] in starts;
    }
  }

  // ---------------------------------------------------------------- packed batches

  function Offsets(lens: seq<nat>, base: nat): (r: seq<nat>)
    ensures |r| == |lens|
  {
    if lens == [] then [] else [base] + Offsets(lens[1..], base + lens[0])
  }

  predicate AllPositiveLens(lens: seq<nat>) {
    forall i :: 0 <= i < |lens| ==> lens[i] > 0
  }

  lemma {:induction false} ZerosConcat(a: seq<nat>, b: seq<nat>, base: nat)
    ensures ZerosFrom(a + b, base) == ZerosFrom(a, base) + ZerosFrom(b, base + |a|)
  {
    if a == [] {
      assert a + b == b;
    } else {
      assert (a + b)[1..] == a[1..] + b;
      ZerosConcat(a[1..], b, base + 1);
    }
  }

  lemma ZerosOfRange(n: nat, base: nat)
    requires n > 0
    ensures ZerosFrom(Range(n), base) == [base]
  {
    NoZeros(Range(n)[1..], base + 1);
  }

  lemma {:induction false} NoZeros(positions: seq<nat>, base: nat)
    requires forall i :: 0 <= i < |positions| ==> positions[i] > 0
    ensures ZerosFrom(positions, base) == []
  {
    if positions != [] { NoZeros(positions[1..], base + 1); }
  }

  /** Prepared samples: positions count from zero and the stored length is the sample's own. */
  predicate FreshSamples(content: seq<Item>) {
    forall i :: 0 <= i < |content| ==>
      && Len(content[i].sample) > 0
      && content[i].sample.positionIds == Range(Len(content[i].sample))
      && content[i].sample.seqLens == [Len(content[i].sample)]
  }

  lemma {:induction false} PackedZeros(content: seq<Item>, base: nat)
    requires FreshSamples(content)
    ensures ZerosFrom(Gather(content, PositionsOf), base) == Offsets(Lengths(content), base)
    ensures |Gather(content, PositionsOf)| == SumNat(Lengths(content))
    ensures Gather(content, SeqLensOf) == Lengths(content)
    ensures AllPositiveLens(Lengths(content))
  {
    if content != [] {
      var n := Len(content[0].sample);
      PackedZeros(content[1..], base + n);
      ZerosConcat(Range(n), Gather(content[1..], PositionsOf), base);
      ZerosOfRange(n, base);
      hide ZerosFrom;
      hide Range;
      assert Gather(content, PositionsOf) == Range(n) + Gather(content[1..], PositionsOf);
      assert Gather(content, SeqLensOf) == [n] + Gather(content[1..], SeqLensOf);
      assert Lengths(content) == [n] + Lengths(content[1..]);
      assert Lengths(content)[1..] == Lengths(content[1..]);
    }
  }

  lemma {:induction false} OffsetsAscend(lens: seq<nat>, base: nat)
    requires AllPositiveLens(lens)
    ensures Ascends(Offsets(lens, base))
    ensures forall z :: z in Offsets(lens, base) ==> base <= z < base + SumNat(lens)
  {
    if lens != [] {
      OffsetsAscend(lens[1..], base + lens[0]);
      forall i, j | 0 <= i < j < |lens| ensures Offsets(lens, base)[i] < Offsets(lens, base)[j] {
        assert Offsets(lens, base)[j] in Offsets(lens[1..], base + lens[0]);
      }
    }
  }

  lemma {:induction false} OffsetsCumulate(lens: seq<nat>, base: nat)
    ensures [base] + CumSum(lens, base) == Offsets(lens, base) + [base + SumNat(lens)]
  {
    if lens != [] { OffsetsCumulate(lens[1..], base + lens[0]); }
  }

  lemma StartsOfOffsets(positions: seq<nat>, lens: seq<nat>, more: seq<nat>)
    requires lens != [] && AllPositiveLens(lens)
    requires ZerosFrom(positions, 0) == Offsets(lens, 0) + more && Ascends(Offsets(lens, 0) + more)
    ensures Starts(positions) == Offsets(lens, 0) + more
  {
    var zeros := Offsets(lens, 0) + more;
    assert ([0] + zeros)[1..] == zeros;
    AlreadyUnique(zeros);
  }

  lemma PackedStarts(content: seq<Item>)
    requires content != [] && FreshSamples(content)
    ensures Starts(Gather(content, PositionsOf)) == Offsets(Lengths(content), 0)
    ensures |Gather(content, PositionsOf)| == SumNat(Lengths(content)) > 0
  {
    hide Gather;
    PackedZeros(content, 0);
    OffsetsAscend(Lengths(content), 0);
    assert Offsets(Lengths(content), 0) + [] == Offsets(Lengths(content), 0);
    StartsOfOffsets(Gather(content, PositionsOf), Lengths(content), []);
    assert SumNat(Lengths(content)) == Lengths(content)[0] + SumNat(Lengths(content)[1..]);
  }

  /** Before padding, the two derivations agree. */
  lemma BoundariesAgree(content: seq<Item>, numLoras: nat)
    requires content != [] && FreshSamples(content) && MaterializeBin(content, numLoras).Success?
    ensures CuFromPositions(MaterializeBin(content, numLoras).value.positionIds) == Some(Offsets(Lengths(content), 0) + [SumNat(Lengths(content))])
    ensures CuFromSeqLens(MaterializeBin(content, numLoras).value.seqLens, SumNat(Lengths(content))) == Some(Offsets(Lengths(content), 0) + [SumNat(Lengths(content))])
    ensures |MaterializeBin(content, numLoras).value.positionIds| == SumNat(Lengths(content))
  {
    hide Gather;
    hide Starts;
    hide Offsets;
    PackedZeros(content, 0);
    PackedStarts(content);
    OffsetsCumulate(Lengths(content), 0);
    BoundariesExact(Gather(content, PositionsOf));
  }

  lemma PaddedStarts(content: seq<Item>, p: nat)
    requires content != [] && FreshSamples(content) && p > 0
    ensures Starts(Gather(content, PositionsOf) + Range(p)) == Offsets(Lengths(content), 0) + [SumNat(Lengths(content))]
  {
    hide Gather;
    var lens, positions := Lengths(content), Gather(content, PositionsOf);
    PackedZeros(content, 0);
    ZerosConcat(positions, Range(p), 0);
    ZerosOfRange(p, |positions|);
    OffsetsAscend(lens, 0);
    forall i | 0 <= i < |lens| ensures Offsets(lens, 0)[i] < SumNat(lens) { assert Offsets(lens, 0)[i] in Offsets(lens, 0); }
    StartsOfOffsets(positions + Range(p), lens, [SumNat(lens)]);
  }

  /** Padding adds exactly one boundary, where the padding starts. */
  lemma PaddingAddsOneBoundary(content: seq<Item>, numLoras: nat, p: nat)
    requires content != [] && FreshSamples(content) && MaterializeBin(content, numLoras).Success? && p > 0
    requires Paddable(MaterializeBin(content, numLoras).value)
    ensures var n := SumNat(Lengths(content));
            CuFromPositions(Padded(MaterializeBin(content, numLoras).value, p).positionIds) == Some(Offsets(Lengths(content), 0) + [n, n + p])
    ensures var n := SumNat(Lengths(content));
            CuFromSeqLens(Padded(MaterializeBin(content, numLoras).value, p).seqLens, n + p) == Some(Offsets(Lengths(content), 0) + [n + p])
  {
    hide Gather;
    hide Starts;
    hide Offsets;
    hide Lengths;
    hide CuFromPositions;
    hide CuFromSeqLens;
    var lens, positions := Lengths(content), Gather(content, PositionsOf);
    var n := SumNat(lens);
    PackedZeros(content, 0);
    PaddedStarts(content, p);
    BoundariesExact(positions + Range(p));
    assert (Offsets(lens, 0) + [n]) + [n + p] == Offsets(lens, 0) + [n, n + p];
    PaddedSeqLens(lens, p);
  }

  lemma PaddedSeqLens(lens: seq<nat>, p: nat)
    requires lens != [] && AllPositiveLens(lens)
    ensures CuFromSeqLens(AddToLast(lens, p), SumNat(lens) + p) == Some(Offsets(lens, 0) + [SumNat(lens) + p])
  {
    SumNatAddToLast(lens, p);
    OffsetsCumulate(AddToLast(lens, p), 0);
    OffsetsIgnoreLast(lens, AddToLast(lens, p), 0);
  }

  lemma {:induction false} OffsetsIgnoreLast(a: seq<nat>, b: seq<nat>, base: nat)
    requires |a| == |b| > 0 && a[..|a| - 1] == b[..|b| - 1]
    ensures Offsets(a, base) == Offsets(b, base)
  {
    if |a| > 1 {
      assert a[0] == a[..|a| - 1][0] == b[0];
      assert a[1..][..|a| - 2] == a[..|a| - 1][1..] == b[1..][..|b| - 2];
      OffsetsIgnoreLast(a[1..], b[1..], base + a[0]);
    }
  }

  // ---------------------------------------------------------------- bins of prepared samples

  /** The sample has a token and is not cut to nothing. */
  predicate KeepsTokens(s: TrainingSample, seqLen: nat)
    requires !Rejected(s, seqLen)
  {
    s.tokenIds != [] && seqLen > 0 && !StartsInOversizedImage(s, seqLen)
  }

  /** Prepared samples are fresh exactly when each of them keeps a token. */
  lemma PreparedFresh(items: seq<Item>, samples: seq<TrainingSample>, loras: seq<nat>, seqLen: nat)
    requires AllPrepared(items, samples, loras, seqLen) && forall i :: 0 <= i < |items| ==> !Rejected(samples[i], seqLen)
    ensures FreshSamples(items) <==> forall i :: 0 <= i < |items| ==> KeepsTokens(samples[i], seqLen)
  {
    hide Rejected;
    hide StartsInOversizedImage;
    forall i | 0 <= i < |items|
      ensures items[i].sample.positionIds == Range(Len(items[i].sample)) && items[i].sample.seqLens == [Len(items[i].sample)]
      ensures Len(items[i].sample) == 0 <==> !KeepsTokens(samples[i], seqLen)
    {
      assert PreparedItem(items[i], loras[i], samples[i], seqLen);
      PreparedStreams(samples[i], seqLen, items[i].sample);
      PreparedEmpty(samples[i], seqLen, items[i].sample);
    }
    hide KeepsTokens;
    hide AllPrepared;
  }

  lemma PreparedStreams(s: TrainingSample, seqLen: nat, m: MicroBatch)
    requires Prepared(s, seqLen, m)
    ensures m.positionIds == Range(Len(m)) && m.seqLens == [Len(m)]
  {
    hide CutFor;
    hide Aligned;
    hide PreparedFields;
    var t :| IsPrepared(s, seqLen, m, t);
  }

  lemma PackedFresh(items: seq<Item>, maxSeqLen: nat, workers: nat, c: BinCost, b: nat)
    requires workers > 0 && FreshSamples(items) && b < |PackedBins(items, maxSeqLen, workers, c)|
    ensures FreshSamples(PackedBins(items, maxSeqLen, workers, c)[b])
  {
    hide PackedBins;
    PackedBinsItems(items, maxSeqLen, workers, c);
    var bins := PackedBins(items, maxSeqLen, workers, c);
    BagMember(bins, b);
    forall i | 0 <= i < |bins[b]| ensures exists j :: 0 <= j < |items| && items[j] == bins[b][i] {
      assert bins[b][i] in multiset(bins[b]);
      assert bins[b][i] in multiset(items);
    }
  }

  /** For the micro batches of prepared samples that keep a token, both derivations give the boundaries of the samples. */
  lemma PreparedBoundaries(items: seq<Item>, samples: seq<TrainingSample>, loras: seq<nat>, seqLen: nat, workers: nat, c: BinCost,
                           numLoras: nat, b: nat)
    requires workers > 0 && AllPrepared(items, samples, loras, seqLen)
    requires forall i :: 0 <= i < |items| ==> !Rejected(samples[i], seqLen) && KeepsTokens(samples[i], seqLen)
    requires b < |PackedBins(items, seqLen, workers, c)| && PackedBins(items, seqLen, workers, c)[b] != []
    requires MaterializeBin(PackedBins(items, seqLen, workers, c)[b], numLoras).Success?
    ensures var bin := PackedBins(items, seqLen, workers, c)[b];
            var m, lens := MaterializeBin(bin, numLoras).value, Lengths(bin);
            && CuFromPositions(m.positionIds) == Some(Offsets(lens, 0) + [SumNat(lens)])
            && CuFromSeqLens(m.seqLens, SumNat(lens)) == Some(Offsets(lens, 0) + [SumNat(lens)])
  {
    hide Rejected;
    hide PackedBins;
    hide MaterializeBin;
    hide CuFromPositions;
    hide CuFromSeqLens;
    PreparedFresh(items, samples, loras, seqLen);
    PackedFresh(items, seqLen, workers, c, b);
    BoundariesAgree(PackedBins(items, seqLen, workers, c)[b], numLoras);
  }
}
