/** What a training sample says about each of its tokens, and that preparation carries it over unchanged. */
module SampleRecords {
  import opened Wrappers
  import opened Sequences
  import opened MicroBatches
  import opened Preparation

  predicate Reaches<T>(stream: Option<seq<T>>, n: nat) {
    stream.Some? ==> n <= |stream.value|
  }

  /** Every stream the sample carries has an entry for each of the first `n` tokens. */
  predicate Covers(s: TrainingSample, n: nat) {
    && n <= |s.tokenIds| && n <= |s.mask| && n <= |s.logprobs| && n <= |s.temperatures|
    && Reaches(s.advantages, n) && Reaches(s.refLogprobs, n) && Reaches(s.rlWeights, n) && Reaches(s.ceWeights, n)
    && Reaches(s.refKlWeights, n) && Reaches(s.mmTypeIds, n)
    && (s.routedExperts.Some? ==> n <= |s.routedExperts.value.rows|)
  }

  /** Entry `i` of an optional stream, or what its absence stands for. */
  function EntryOr<T>(stream: Option<seq<T>>, i: nat, absent: T): T
    requires Reaches(stream, i + 1)
  {
    if stream.Some? then stream.value[i] else absent
  }

  /** What the sample's own streams say about token `i`. */
  function TokenOf(s: TrainingSample, i: nat): TokenRecord
    requires Covers(s, i + 1)
  {
    TokenRecord(s.tokenIds[i], s.mask[i], EntryOr(s.advantages, i, 0.0), s.logprobs[i], i, s.temperatures[i], s.envName,
                EntryOr(s.refLogprobs, i, 0.0), EntryOr(s.rlWeights, i, 1.0), EntryOr(s.ceWeights, i, 0.0),
                EntryOr(s.refKlWeights, i, 0.0), EntryOr(s.mmTypeIds, i, 0))
  }

  /** Both carry the stream or neither does. */
  predicate BothCarry<T, U>(a: Option<T>, b: Option<U>) {
    a.Some? <==> b.Some?
  }

  /** The prepared sample carries the optional streams the sample carries, and each token's routed experts. */
  predicate CarriesStreams(s: TrainingSample, m: MicroBatch) {
    && BothCarry(m.refLogprobs, s.refLogprobs) && BothCarry(m.rlWeights, s.rlWeights) && BothCarry(m.ceWeights, s.ceWeights)
    && BothCarry(m.refKlWeights, s.refKlWeights) && BothCarry(m.mmTypeIds, s.mmTypeIds)
    && BothCarry(m.routedExperts, s.routedExperts) && m.loraNumTokens == None
    && (s.routedExperts.Some? ==>
          && m.routedExperts.value.dtype == s.routedExperts.value.dtype
          && m.routedExperts.value.layers == s.routedExperts.value.layers
          && m.routedExperts.value.topk == s.routedExperts.value.topk
          && |m.routedExperts.value.rows| == Len(m) <= |s.routedExperts.value.rows|
          && forall i :: 0 <= i < Len(m) ==> m.routedExperts.value.rows[i] == s.routedExperts.value.rows[i])
  }

  /** Every token of a prepared sample is the sample's token, with what each of the sample's streams says about it. */
  lemma PreparedTokens(s: TrainingSample, seqLen: nat, m: MicroBatch)
    requires Prepared(s, seqLen, m)
    ensures Aligned(m) && Covers(s, Len(m)) && CarriesStreams(s, m)
    ensures forall i :: 0 <= i < Len(m) ==> RecordAt(m, i) == TokenOf(s, i)
  {
    var t :| IsPrepared(s, seqLen, m, t);
    hide CutFor;
    PreparedCovers(s, seqLen, m, t);
    PreparedCarries(s, seqLen, m, t);
    hide CarriesStreams;
    forall i | 0 <= i < Len(m) ensures RecordAt(m, i) == TokenOf(s, i) { PreparedToken(s, seqLen, m, t, i); }
  }

  lemma PreparedCovers(s: TrainingSample, seqLen: nat, m: MicroBatch, t: Truncation)
    requires IsPrepared(s, seqLen, m, t)
    ensures Covers(s, Len(m))
  {
    hide CutFor;
  }

  lemma PreparedCarries(s: TrainingSample, seqLen: nat, m: MicroBatch, t: Truncation)
    requires IsPrepared(s, seqLen, m, t)
    ensures CarriesStreams(s, m)
  {
    hide CutFor;
  }

  lemma PreparedToken(s: TrainingSample, seqLen: nat, m: MicroBatch, t: Truncation, i: nat)
    requires IsPrepared(s, seqLen, m, t) && Covers(s, Len(m)) && i < Len(m)
    ensures RecordAt(m, i) == TokenOf(s, i)
  {
    hide CutFor;
  }

  // ---------------------------------------------------------------- how far a sample is kept

  /** The first `n` tokens are kept: all that fit, or with images those before the first image that does not fit. */
  ghost predicate KeepsFirst(s: TrainingSample, seqLen: nat, n: nat) {
    if |s.tokenIds| <= seqLen then n == |s.tokenIds|
    else if s.mmTypeIds.None? || s.mmKwargs.None? then n == seqLen
    else
      && Readable(s.mmTypeIds.value, s.mmKwargs.value)
      && exists kept: nat :: WholeImages(s.mmTypeIds.value, ImageTokens(s.mmTypeIds.value, s.mmKwargs.value), seqLen, n, kept)
  }

  lemma PreparedLength(s: TrainingSample, seqLen: nat, m: MicroBatch)
    requires Prepared(s, seqLen, m)
    ensures KeepsFirst(s, seqLen, Len(m))
  {
    var t :| IsPrepared(s, seqLen, m, t);
    hide Aligned;
    hide WholeImages;
    hide ImageTokens;
    hide Readable;
    hide SliceKwargs;
    if NeedsImageCut(s, seqLen) {
      CutWithin(s.mmTypeIds.value, s.mmKwargs.value, seqLen, t);
      assert Len(m) == t.cut;
    }
  }

  /** The image tensors of an uncut sample, or of one cut without type ids, are the sample's own. */
  lemma PreparedImages(s: TrainingSample, seqLen: nat, m: MicroBatch)
    requires Prepared(s, seqLen, m) && (|s.tokenIds| <= seqLen || s.mmTypeIds.None?)
    ensures m.mmKwargs == s.mmKwargs
  {
    var t :| IsPrepared(s, seqLen, m, t);
    hide IsTruncation;
    hide Aligned;
  }

  /** The cut tensor has the type and the trailing dimensions of the sample's. */
  predicate SameLayoutAs(t: Tensor, of: Tensor) {
    t.dtype == of.dtype && (of.shape != [] ==> t.shape != [] && t.shape[1..] == of.shape[1..])
  }

  /** Preparation changes no tensor's type or trailing dimensions, and drops all tensors or none. */
  lemma PreparedLayout(s: TrainingSample, seqLen: nat, m: MicroBatch)
    requires Prepared(s, seqLen, m) && m.mmKwargs.Some?
    ensures s.mmKwargs.Some? && m.mmKwargs.value.Keys == s.mmKwargs.value.Keys
    ensures forall k :: k in s.mmKwargs.value ==> SameLayoutAs(m.mmKwargs.value[k], s.mmKwargs.value[k])
  {
    var t :| IsPrepared(s, seqLen, m, t);
    hide Aligned;
    hide WholeImages;
    hide Readable;
    hide ImageTokens;
    assert m.mmKwargs == t.kwargs;
  }

  // ---------------------------------------------------------------- which samples are refused

  /** An image's tokens are its patches over the patches per placeholder. */
  lemma ImageTokensOf(typeIds: seq<nat>, kwargs: map<string, Tensor>, i: nat, time: nat, height: nat, width: nat)
    requires Readable(typeIds, kwargs) && i < |kwargs[GRID].rows| && kwargs[GRID].rows[i] == [time, height, width]
    requires Placeholders(typeIds) > 0
    ensures kwargs[PIXELS].shape[0] / Placeholders(typeIds) > 0
    ensures ImageTokens(typeIds, kwargs)[i] == (time * (height * width)) / (kwargs[PIXELS].shape[0] / Placeholders(typeIds))
    ensures PatchesPerImage(kwargs[GRID].rows)[i] == time * (height * width)
  {
    ProductOfThree(time, height, width);
    hide Product;
  }

  lemma ProductOfThree(a: nat, b: nat, c: nat)
    ensures Product([a, b, c]) == a * (b * c)
  {
    assert [a, b, c][1..] == [b, c] && [b, c][1..] == [c];
    assert Product([c]) == c * Product([c][1..]);
  }

  /** The images cannot be told apart: a tensor is missing or misshapen, or there is less than a patch per placeholder. */
  predicate UnreadableImagesOf(typeIds: seq<nat>, kwargs: map<string, Tensor>) {
    || GRID !in kwargs || PIXELS !in kwargs || kwargs[PIXELS].shape == []
    || kwargs[GRID].shape == [] || kwargs[GRID].shape[0] != |kwargs[GRID].rows|
    || (kwargs[GRID].rows != [] && kwargs[PIXELS].shape[0] < Placeholders(typeIds))
  }

  /** A token counts for the rl loss: its mask is set and its rl weight, if there is one, is not zero. */
  predicate HasRlToken(s: TrainingSample) {
    exists i :: 0 <= i < |s.mask| && s.mask[i] && (s.rlWeights.None? || (i < |s.rlWeights.value| && s.rlWeights.value[i] != 0.0))
  }

  predicate Refused(s: TrainingSample, seqLen: nat) {
    || (s.mmTypeIds.Some? && |s.mmTypeIds.value| != |s.tokenIds|)
    || (s.mmTypeIds.None? && s.mmKwargs.Some? && GRID in s.mmKwargs.value)
    || (s.advantages.None? && HasRlToken(s))
    || s.envName == "all"
    || (|s.tokenIds| > seqLen && s.mmTypeIds.Some? && s.mmKwargs.Some? && UnreadableImagesOf(s.mmTypeIds.value, s.mmKwargs.value))
  }

  predicate Matches<T>(stream: Option<seq<T>>, n: nat) {
    stream.Some? ==> |stream.value| == n
  }

  /** Every stream is exactly as long as the sample. */
  predicate LinesUp(s: TrainingSample) {
    var n := |s.tokenIds|;
    && |s.mask| == n && |s.logprobs| == n && |s.temperatures| == n
    && Matches(s.advantages, n) && Matches(s.refLogprobs, n) && Matches(s.rlWeights, n) && Matches(s.ceWeights, n)
    && Matches(s.refKlWeights, n) && Matches(s.mmTypeIds, n)
    && (s.routedExperts.Some? ==> |s.routedExperts.value.rows| == n)
  }

  /** An uncut sample must line up exactly; a cut one needs an entry in every stream for each token it keeps. */
  ghost predicate MisalignedFor(s: TrainingSample, seqLen: nat) {
    if |s.tokenIds| <= seqLen then !LinesUp(s) else exists n: nat :: KeepsFirst(s, seqLen, n) && !Covers(s, n)
  }

  lemma RlTokens(s: TrainingSample)
    ensures HasRlMembers(s) <==> HasRlToken(s)
  {
  }

  lemma UnreadableIs(typeIds: seq<nat>, kwargs: map<string, Tensor>)
    ensures UnreadableImagesOf(typeIds, kwargs) <==> !Readable(typeIds, kwargs)
  {
    hide Placeholders;
    if HasImages(kwargs) && Placeholders(typeIds) > 0 { QuotientPositive(kwargs[PIXELS].shape[0], Placeholders(typeIds)); }
  }

  lemma QuotientPositive(a: nat, b: nat)
    requires b > 0
    ensures a / b > 0 <==> a >= b
  {
    if a < b { assert a / b == 0; }
  }

  lemma RejectedIs(s: TrainingSample, seqLen: nat)
    ensures Rejected(s, seqLen) <==> Refused(s, seqLen)
  {
    RlTokens(s);
    if s.mmTypeIds.Some? && s.mmKwargs.Some? { UnreadableIs(s.mmTypeIds.value, s.mmKwargs.value); }
    hide HasRlMembers;
    hide HasRlToken;
    hide Readable;
    hide UnreadableImagesOf;
  }

  lemma WholeAligned(s: TrainingSample, seqLen: nat, t: Truncation)
    requires |s.tokenIds| <= seqLen
    ensures Aligned(PreparedFields(s, seqLen, t)) <==> LinesUp(s)
  {
    OneSum(|s.tokenIds|);
  }

  lemma OneSum(n: nat)
    ensures SumNat([n]) == n
  {
    assert SumNat([n]) == n + SumNat([n][1..]);
  }

  lemma CutAligned(s: TrainingSample, seqLen: nat, t: Truncation)
    requires |s.tokenIds| > seqLen >= t.cut
    ensures Aligned(PreparedFields(s, seqLen, t)) <==> Covers(s, t.cut)
  {
    OneSum(t.cut);
  }

  lemma CutKeeps(s: TrainingSample, seqLen: nat, n: nat)
    requires |s.tokenIds| > seqLen
    ensures KeepsFirst(s, seqLen, n) <==> exists t :: CutFor(s, seqLen, t) && t.cut == n && n <= seqLen
  {
    hide ImageTokens;
    hide SliceKwargs;
    if KeepsFirst(s, seqLen, n) {
      if NeedsImageCut(s, seqLen) {
        var typeIds, kwargs := s.mmTypeIds.value, s.mmKwargs.value;
        var kept: nat :| WholeImages(typeIds, ImageTokens(typeIds, kwargs), seqLen, n, kept);
        var t := Truncation(n, kept, if kept == 0 then None
                                     else Some(SliceKwargs(kwargs, kept, SumNat(PatchesPerImage(kwargs[GRID].rows)[..kept]))));
        assert IsTruncation(typeIds, kwargs, seqLen, t);
        assert CutFor(s, seqLen, t) && t.cut == n;
      } else {
        assert CutFor(s, seqLen, Truncation(n, 0, s.mmKwargs));
      }
    }
  }

  /** A sample is refused exactly when a check on its fields fails or its streams do not line up. */
  lemma RefusedExactly(s: TrainingSample, seqLen: nat)
    ensures Unpreparable(s, seqLen) <==> Refused(s, seqLen) || MisalignedFor(s, seqLen)
  {
    RejectedIs(s, seqLen);
    hide Rejected;
    hide Refused;
    hide Aligned;
    hide PreparedFields;
    if |s.tokenIds| <= seqLen {
      var whole := Truncation(Min(seqLen, |s.tokenIds|), 0, s.mmKwargs);
      assert CutFor(s, seqLen, whole);
      forall t ensures Aligned(PreparedFields(s, seqLen, t)) <==> LinesUp(s) { WholeAligned(s, seqLen, t); }
    } else {
      hide Covers;
      forall n: nat ensures KeepsFirst(s, seqLen, n) <==> exists t :: CutFor(s, seqLen, t) && t.cut == n && n <= seqLen { CutKeeps(s, seqLen, n); }
      hide KeepsFirst;
      forall t | CutFor(s, seqLen, t) ensures t.cut <= seqLen && (Aligned(PreparedFields(s, seqLen, t)) <==> Covers(s, t.cut)) {
        if NeedsImageCut(s, seqLen) { CutWithin(s.mmTypeIds.value, s.mmKwargs.value, seqLen, t); }
        CutAligned(s, seqLen, t);
      }
      hide CutFor;
    }
  }

  // ---------------------------------------------------------------- the trained tokens of a sample

  /** The records of the first `n` tokens. */
  function Tokens(s: TrainingSample, n: nat): seq<TokenRecord>
    requires Covers(s, n)
  {
    seq(n, i requires 0 <= i < n => TokenOf(s, i))
  }

  function SampleTrained(s: TrainingSample, n: nat): multiset<TokenRecord> {
    if Covers(s, n) then multiset(TrainedOnly(Tokens(s, n))) else multiset{}
  }

  function TokensTrained(samples: seq<TrainingSample>, cuts: seq<nat>): multiset<TokenRecord>
    requires |cuts| <= |samples|
  {
    if cuts == [] then multiset{} else SampleTrained(samples[0], cuts[0]) + TokensTrained(samples[1..], cuts[1..])
  }

  /** How many tokens of each sample are kept. */
  ghost predicate KeptOf(samples: seq<TrainingSample>, seqLen: nat, cuts: seq<nat>) {
    |cuts| <= |samples| && forall k :: 0 <= k < |cuts| ==> KeepsFirst(samples[k], seqLen, cuts[k]) && Covers(samples[k], cuts[k])
  }

  lemma PreparedTrained(s: TrainingSample, seqLen: nat, m: MicroBatch)
    requires Prepared(s, seqLen, m)
    ensures Aligned(m) && Covers(s, Len(m)) && Trained(m) == SampleTrained(s, Len(m))
  {
    PreparedTokens(s, seqLen, m);
    hide Aligned;
    hide Covers;
    hide TokenOf;
    hide RecordAt;
    assert Records(m) == Tokens(s, Len(m));
  }
}
