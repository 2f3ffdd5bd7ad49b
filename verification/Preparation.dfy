/** Turning one training sample into a micro batch of its own, truncated to the sequence length. */
module Preparation {
  import opened Wrappers
  import opened Sequences
  import opened MicroBatches

  datatype TrainingSample = TrainingSample(
    tokenIds: seq<int>,
    mask: seq<bool>,
    logprobs: seq<real>,
    temperatures: seq<real>,
    envName: string,
    refLogprobs: Option<seq<real>>,
    mmKwargs: Option<map<string, Tensor>>,
    routedExperts: Option<RoutedExperts>,
    mmTypeIds: Option<seq<nat>>,
    rlWeights: Option<seq<real>>,
    ceWeights: Option<seq<real>>,
    refKlWeights: Option<seq<real>>,
    advantages: Option<seq<real>>)

  /** A slice `s[:n]`, which stops at the end of the list. */
  function Take<T>(s: seq<T>, n: nat): (r: seq<T>)
    ensures |r| == if n <= |s| then n else |s|
  {
    if n <= |s| then s[..n] else s
  }

  function TakeOpt<T>(s: Option<seq<T>>, n: nat): Option<seq<T>> {
    if s.Some? then Some(Take(s.value, n)) else None
  }

  // ---------------------------------------------------------------- whole-image truncation

  const GRID := "image_grid_thw"
  const PIXELS := "pixel_values"

  /** How many image placeholders a stretch of type ids holds. */
  function Placeholders(typeIds: seq<nat>): nat {
    if typeIds == [] then 0
    else Placeholders(typeIds[..|typeIds| - 1]) + if typeIds[|typeIds| - 1] != 0 then 1 else 0
  }

  lemma PlaceholdersStep(typeIds: seq<nat>, i: nat)
    requires i < |typeIds|
    ensures Placeholders(typeIds[..i + 1]) == Placeholders(typeIds[..i]) + if typeIds[i] != 0 then 1 else 0
  {
    assert typeIds[..i + 1][..i] == typeIds[..i];
  }

  lemma {:induction false} PlaceholdersMonotone(typeIds: seq<nat>, i: nat, j: nat)
    requires i <= j <= |typeIds|
    ensures Placeholders(typeIds[..i]) <= Placeholders(typeIds[..j])
  {
    if i < j {
      PlaceholdersMonotone(typeIds, i, j - 1);
      PlaceholdersStep(typeIds, j - 1);
    }
  }

  function Product(row: Row): nat {
    if row == [] then 1 else row[0] * Product(row[1..])
  }

  function PatchesPerImage(grid: seq<Row>): (r: seq<nat>)
    ensures |r| == |grid|
  {
    seq(|grid|, i requires 0 <= i < |grid| => Product(grid[i]))
  }

  function TokensPerImage(patches: seq<nat>, patchesPerToken: nat): (r: seq<nat>)
    requires patchesPerToken > 0
    ensures |r| == |patches|
  {
    seq(|patches|, i requires 0 <= i < |patches| => patches[i] / patchesPerToken)
  }

  predicate HasImages(kwargs: map<string, Tensor>) {
    GRID in kwargs && PIXELS in kwargs && kwargs[PIXELS].shape != []
  }

  /** Patches per placeholder token, 1 when there is no placeholder. */
  function PatchesPerToken(typeIds: seq<nat>, kwargs: map<string, Tensor>): nat
    requires HasImages(kwargs)
  {
    if Placeholders(typeIds) > 0 then kwargs[PIXELS].shape[0] / Placeholders(typeIds) else 1
  }

  predicate Readable(typeIds: seq<nat>, kwargs: map<string, Tensor>) {
    HasImages(kwargs) && WellShaped(kwargs[GRID]) && (kwargs[GRID].rows == [] || PatchesPerToken(typeIds, kwargs) > 0)
  }

  function ImageTokens(typeIds: seq<nat>, kwargs: map<string, Tensor>): (r: seq<nat>)
    requires Readable(typeIds, kwargs)
    ensures |r| == |kwargs[GRID].rows|
  {
    if kwargs[GRID].rows == [] then [] else TokensPerImage(PatchesPerImage(kwargs[GRID].rows), PatchesPerToken(typeIds, kwargs))
  }

  /** First rows of a row-stacked tensor; the declared shape says `n` whatever the data holds. */
  function SliceEncoded(t: Tensor, n: nat): Tensor {
    Tensor(t.dtype, if t.shape != [] then [n] + t.shape[1..] else [n], Take(t.rows, n))
  }

  function SliceKwargs(kwargs: map<string, Tensor>, images: nat, patches: nat): (r: map<string, Tensor>)
    ensures r.Keys == kwargs.Keys
  {
    map k | k in kwargs :: SliceEncoded(kwargs[k], if k == GRID then images else patches)
  }

  /** A slice holds exactly the rows its shape declares, if and only if the tensor has that many rows. */
  lemma SliceHoldsRows(t: Tensor, n: nat)
    requires WellShaped(t)
    ensures WellShaped(SliceEncoded(t, n)) <==> n <= |t.rows|
    ensures n <= |t.rows| ==> SliceEncoded(t, n).rows == t.rows[..n]
  {}

  datatype Truncation = Truncation(cut: nat, kept: nat, kwargs: Option<map<string, Tensor>>)

  /** The cut never splits an image: it is the longest prefix within the limit that ends on a whole image. */
  predicate WholeImages(typeIds: seq<nat>, tokens: seq<nat>, seqLen: nat, cut: nat, kept: nat) {
    var limit := Min(seqLen, |typeIds|);
    && cut <= seqLen && kept <= |tokens|
    && Placeholders(Take(typeIds, cut)) == SumNat(tokens[..kept])
    && SumNat(tokens[..kept]) <= Placeholders(typeIds[..limit])
    && (kept < |tokens| ==> SumNat(tokens[..kept + 1]) > Placeholders(typeIds[..limit]))
    && (forall c: nat :: cut < c <= limit ==> Placeholders(typeIds[..c]) > SumNat(tokens[..kept]))
  }

  predicate IsTruncation(typeIds: seq<nat>, kwargs: map<string, Tensor>, seqLen: nat, t: Truncation) {
    && Readable(typeIds, kwargs)
    && WholeImages(typeIds, ImageTokens(typeIds, kwargs), seqLen, t.cut, t.kept)
    && t.kwargs == if t.kept == 0 then None
                   else Some(SliceKwargs(kwargs, t.kept, SumNat(PatchesPerImage(kwargs[GRID].rows)[..t.kept])))
  }

  lemma SumNatStep(s: seq<nat>, i: nat)
    requires i < |s|
    ensures SumNat(s[..i + 1]) == SumNat(s[..i]) + s[i]
  {
    assert s[..i + 1] == s[..i] + [s[i]];
    SumNatConcat(s[..i], [s[i]]);
    assert SumNat([s[i]]) == s[i] + SumNat([s[i]][1..]);
  }

  method KeepImages(tokens: seq<nat>, surviving: nat) returns (kept: nat, acc: nat)
    ensures kept <= |tokens| && acc == SumNat(tokens[..kept]) <= surviving
    ensures kept < |tokens| ==> SumNat(tokens[..kept + 1]) > surviving
  {
    kept, acc := 0, 0;
    while kept < |tokens|
      invariant kept <= |tokens| && acc == SumNat(tokens[..kept]) <= surviving
    {
      SumNatStep(tokens, kept);
      if acc + tokens[kept] > surviving {
        return;
      }
      acc, kept := acc + tokens[kept], kept + 1;
    }
  }

  /** Where the placeholder after the first `acc` ones stands. */
  method CutBefore(typeIds: seq<nat>, seqLen: nat, acc: nat) returns (cut: nat)
    requires seqLen <= |typeIds| && acc < Placeholders(typeIds[..seqLen])
    ensures cut < seqLen && Placeholders(typeIds[..cut]) == acc && typeIds[cut] != 0
  {
    var seen := 0;
    cut := seqLen;
    for i := 0 to |typeIds|
      invariant cut == seqLen && seen == Placeholders(typeIds[..i]) <= acc
    {
      PlaceholdersStep(typeIds, i);
      if typeIds[i] != 0 {
        seen := seen + 1;
        if seen == acc + 1 {
          if i >= seqLen { PlaceholdersMonotone(typeIds, seqLen, i); }
          return i;
        }
      }
    }
    PlaceholdersMonotone(typeIds, seqLen, |typeIds|);
    assert false;
  }

  /** Cutting at the limit, or before the first placeholder that is not kept, ends on a whole image. */
  lemma CutIsWhole(typeIds: seq<nat>, tokens: seq<nat>, seqLen: nat, cut: nat, kept: nat)
    requires kept <= |tokens|
    requires var limit := Min(seqLen, |typeIds|); var acc, surviving := SumNat(tokens[..kept]), Placeholders(typeIds[..limit]);
             && acc <= surviving && (kept < |tokens| ==> SumNat(tokens[..kept + 1]) > surviving)
             && if acc == surviving then cut == seqLen
                else cut < limit && Placeholders(typeIds[..cut]) == acc && typeIds[cut] != 0
    ensures WholeImages(typeIds, tokens, seqLen, cut, kept)
  {
    var limit := Min(seqLen, |typeIds|);
    assert Take(typeIds, seqLen) == typeIds[..limit];
    if cut < limit {
      PlaceholdersStep(typeIds, cut);
      forall c: nat | cut < c <= limit ensures Placeholders(typeIds[..c]) > Placeholders(typeIds[..cut]) {
        PlaceholdersMonotone(typeIds, cut + 1, c);
      }
    }
  }

  lemma {:induction false} PrefixSumsGrow(s: seq<nat>, i: nat, j: nat)
    requires i <= j <= |s|
    ensures SumNat(s[..i]) <= SumNat(s[..j])
  {
    if i < j {
      PrefixSumsGrow(s, i, j - 1);
      SumNatStep(s, j - 1);
    }
  }

  lemma KeptUnique(typeIds: seq<nat>, tokens: seq<nat>, seqLen: nat, cut: nat, kept: nat, cut': nat, kept': nat)
    requires WholeImages(typeIds, tokens, seqLen, cut, kept) && WholeImages(typeIds, tokens, seqLen, cut', kept')
    ensures kept' <= kept
  {
    if kept < kept' {
      PrefixSumsGrow(tokens, kept + 1, kept');
      assert false;
    }
  }

  lemma CutUnique(typeIds: seq<nat>, tokens: seq<nat>, seqLen: nat, cut: nat, kept: nat, cut': nat)
    requires WholeImages(typeIds, tokens, seqLen, cut, kept) && WholeImages(typeIds, tokens, seqLen, cut', kept) && seqLen <= |typeIds|
    ensures cut' <= cut
  {
    assert Take(typeIds, cut') == typeIds[..cut'];
  }

  /** The specification leaves no choice: a sample has one truncation to a given length. */
  lemma TruncationUnique(typeIds: seq<nat>, kwargs: map<string, Tensor>, seqLen: nat, a: Truncation, b: Truncation)
    requires IsTruncation(typeIds, kwargs, seqLen, a) && IsTruncation(typeIds, kwargs, seqLen, b) && seqLen <= |typeIds|
    ensures a == b
  {
    hide SliceKwargs;
    hide WholeImages;
    var tokens := ImageTokens(typeIds, kwargs);
    KeptUnique(typeIds, tokens, seqLen, a.cut, a.kept, b.cut, b.kept);
    KeptUnique(typeIds, tokens, seqLen, b.cut, b.kept, a.cut, a.kept);
    CutUnique(typeIds, tokens, seqLen, a.cut, a.kept, b.cut);
    CutUnique(typeIds, tokens, seqLen, b.cut, b.kept, a.cut);
  }

  // ---------------------------------------------------------------- cuts to nothing

  /** The leading images that fit have no placeholder between them. */
  predicate NoImageFits(tokens: seq<nat>, room: nat) {
    forall n: nat :: n <= |tokens| && SumNat(tokens[..n]) <= room ==> SumNat(tokens[..n]) == 0
  }

  lemma KeptNothing(typeIds: seq<nat>, tokens: seq<nat>, seqLen: nat, cut: nat, kept: nat)
    requires WholeImages(typeIds, tokens, seqLen, cut, kept) && seqLen <= |typeIds|
    ensures SumNat(tokens[..kept]) == 0 <==> NoImageFits(tokens, Placeholders(typeIds[..seqLen]))
  {
    var room := Placeholders(typeIds[..seqLen]);
    if SumNat(tokens[..kept]) == 0 {
      forall n: nat | n <= |tokens| && SumNat(tokens[..n]) <= room ensures SumNat(tokens[..n]) == 0 {
        if n > kept {
          PrefixSumsGrow(tokens, kept + 1, n);
        } else {
          PrefixSumsGrow(tokens, n, kept);
        }
      }
    }
  }

  /** The cut keeps no token exactly when the first one belongs to an image that does not fit. */
  lemma CutToNothing(typeIds: seq<nat>, kwargs: map<string, Tensor>, seqLen: nat, t: Truncation)
    requires IsTruncation(typeIds, kwargs, seqLen, t) && 0 < seqLen <= |typeIds|
    ensures t.cut == 0 <==> typeIds[0] != 0 && NoImageFits(ImageTokens(typeIds, kwargs), Placeholders(typeIds[..seqLen]))
  {
    var tokens := ImageTokens(typeIds, kwargs);
    KeptNothing(typeIds, tokens, seqLen, t.cut, t.kept);
    PlaceholdersStep(typeIds, 0);
    assert Take(typeIds, t.cut) == typeIds[..t.cut] && typeIds[..0] == [];
    if t.cut > 0 { PlaceholdersMonotone(typeIds, 1, t.cut); }
    hide ImageTokens;
    hide NoImageFits;
    hide SliceKwargs;
    hide Readable;
  }

  // ---------------------------------------------------------------- the tensors of the kept images

  /** How many rows of tensor `k` belong to the first `kept` images. */
  function RowsKept(kwargs: map<string, Tensor>, kept: nat, k: string): nat
    requires GRID in kwargs && kept <= |kwargs[GRID].rows|
  {
    if k == GRID then kept else SumNat(PatchesPerImage(kwargs[GRID].rows)[..kept])
  }

  /** Every tensor has the rows it declares, and at least those the grid asks for. */
  predicate Complete(kwargs: map<string, Tensor>) {
    && (forall k :: k in kwargs ==> WellShaped(kwargs[k]))
    && (GRID in kwargs ==>
          forall k :: k in kwargs && k != GRID ==> SumNat(PatchesPerImage(kwargs[GRID].rows)) <= |kwargs[k].rows|)
  }

  /** A tensor cut with its images has the rows it declares exactly when it had those of the kept images. */
  lemma TruncatedRows(typeIds: seq<nat>, kwargs: map<string, Tensor>, seqLen: nat, t: Truncation, k: string)
    requires IsTruncation(typeIds, kwargs, seqLen, t) && t.kwargs.Some? && k in kwargs && WellShaped(kwargs[k])
    ensures t.kept <= |kwargs[GRID].rows| && k in t.kwargs.value
    ensures WellShaped(t.kwargs.value[k]) <==> RowsKept(kwargs, t.kept, k) <= |kwargs[k].rows|
    ensures k == GRID || RowsKept(kwargs, t.kept, k) <= |kwargs[k].rows| ==>
      WellShaped(t.kwargs.value[k]) && t.kwargs.value[k].rows == Take(kwargs[k].rows, RowsKept(kwargs, t.kept, k))
  {
    SliceHoldsRows(kwargs[k], RowsKept(kwargs, t.kept, k));
    hide WellShaped;
    hide Product;
  }

  /** Tensor `k` has the patch rows of every run of leading images whose placeholders survive the limit. */
  predicate CoversImages(typeIds: seq<nat>, kwargs: map<string, Tensor>, seqLen: nat, k: string)
    requires Readable(typeIds, kwargs) && k in kwargs
  {
    var room := Placeholders(typeIds[..Min(seqLen, |typeIds|)]);
    forall n: nat :: n <= |kwargs[GRID].rows| && SumNat(ImageTokens(typeIds, kwargs)[..n]) <= room ==>
      SumNat(PatchesPerImage(kwargs[GRID].rows)[..n]) <= |kwargs[k].rows|
  }

  /** A cut tensor holds the rows it declares exactly when the input covers the images that fit, as a caller can check. */
  lemma TruncatedShape(typeIds: seq<nat>, kwargs: map<string, Tensor>, seqLen: nat, t: Truncation, k: string)
    requires IsTruncation(typeIds, kwargs, seqLen, t) && t.kwargs.Some? && k in kwargs && k != GRID && WellShaped(kwargs[k])
    ensures k in t.kwargs.value && (WellShaped(t.kwargs.value[k]) <==> CoversImages(typeIds, kwargs, seqLen, k))
  {
    TruncatedRows(typeIds, kwargs, seqLen, t, k);
    var tokens, patches := ImageTokens(typeIds, kwargs), PatchesPerImage(kwargs[GRID].rows);
    hide ImageTokens;
    hide PatchesPerImage;
    hide WellShaped;
    hide SliceKwargs;
    hide Readable;
    var room := Placeholders(typeIds[..Min(seqLen, |typeIds|)]);
    forall n: nat | n <= |tokens| && SumNat(tokens[..n]) <= room ensures SumNat(patches[..n]) <= SumNat(patches[..t.kept]) {
      if n > t.kept {
        PrefixSumsGrow(tokens, t.kept + 1, n);
      } else {
        PrefixSumsGrow(patches, n, t.kept);
      }
    }
  }

  lemma PatchesOfPrefix(grid: seq<Row>, kept: nat)
    requires kept <= |grid|
    ensures PatchesPerImage(grid[..kept]) == PatchesPerImage(grid)[..kept]
    ensures SumNat(PatchesPerImage(grid)[..kept]) <= SumNat(PatchesPerImage(grid))
  {
    hide Product;
    PrefixSumsGrow(PatchesPerImage(grid), kept, |grid|);
    assert PatchesPerImage(grid)[..|grid|] == PatchesPerImage(grid);
  }

  /** The patches the grid still names are the rows every other tensor has. */
  predicate Exact(kwargs: map<string, Tensor>) {
    && Complete(kwargs) && GRID in kwargs
    && forall k :: k in kwargs && k != GRID ==> |kwargs[k].rows| == SumNat(PatchesPerImage(kwargs[GRID].rows))
  }

  /** Complete tensors stay complete, and after the cut they hold the kept images' rows and no more. */
  lemma TruncatedExact(typeIds: seq<nat>, kwargs: map<string, Tensor>, seqLen: nat, t: Truncation)
    requires IsTruncation(typeIds, kwargs, seqLen, t) && t.kwargs.Some? && Complete(kwargs)
    ensures Exact(t.kwargs.value) && t.kwargs.value.Keys == kwargs.Keys
    ensures t.kept <= |kwargs[GRID].rows| && t.kwargs.value[GRID].rows == kwargs[GRID].rows[..t.kept]
  {
    var grid := kwargs[GRID].rows;
    TruncatedRows(typeIds, kwargs, seqLen, t, GRID);
    PatchesOfPrefix(grid, t.kept);
    var patches := SumNat(PatchesPerImage(grid)[..t.kept]);
    forall k | k in kwargs && k != GRID
      ensures WellShaped(t.kwargs.value[k]) && |t.kwargs.value[k].rows| == patches
    {
      hide SliceKwargs;
      hide IsTruncation;
      TruncatedRows(typeIds, kwargs, seqLen, t, k);
    }
    hide WellShaped;
    hide PatchesPerImage;
    hide WholeImages;
    hide Readable;
    hide SliceEncoded;
  }

  method TruncateMm(typeIds: seq<nat>, kwargs: map<string, Tensor>, seqLen: nat) returns (r: PackResult<Truncation>)
    ensures r.Success? ==> IsTruncation(typeIds, kwargs, seqLen, r.value)
    ensures r.Success? && r.value.kwargs.Some? && Complete(kwargs) ==> Exact(r.value.kwargs.value)
    ensures r.Failure? <==> !Readable(typeIds, kwargs)
  {
    if !Readable(typeIds, kwargs) {
      return Failure(UnreadableImages);
    }
    hide WellShaped;
    hide Product;
    hide ImageTokens;
    hide SliceKwargs;
    var tokens := ImageTokens(typeIds, kwargs);
    var limit := Min(seqLen, |typeIds|);
    var surviving := Placeholders(typeIds[..limit]);
    var kept, acc := KeepImages(tokens, surviving);
    var cut := seqLen;
    if acc != surviving {
      cut := CutBefore(typeIds, limit, acc);
    }
    CutIsWhole(typeIds, tokens, seqLen, cut, kept);
    hide WholeImages;
    var patches := SumNat(PatchesPerImage(kwargs[GRID].rows)[..kept]);
    var t := Truncation(cut, kept, if kept == 0 then None else Some(SliceKwargs(kwargs, kept, patches)));
    hide Complete;
    hide Exact;
    if t.kwargs.Some? && Complete(kwargs) { TruncatedExact(typeIds, kwargs, seqLen, t); }
    return Success(t);
  }

  /** One image of one patch, and a tensor that has no row for it. */
  const SHORT := map[GRID := Tensor("i8", [1, 1], [[1]]), PIXELS := Tensor("f4", [1, 1], [[0]]), "extra" := Tensor("f4", [0, 1], [])]

  /** A well-shaped tensor without the image's rows is cut to one that declares a row it does not have. */
  lemma ShortTensorCut()
    ensures WellShaped(SHORT["extra"])
    ensures exists t :: IsTruncation([1, 0], SHORT, 1, t) && t.kwargs.Some? && !WellShaped(t.kwargs.value["extra"])
  {
    ShortTokens();
    assert [1, 0][..1] == [1] && Placeholders([1]) == Placeholders([1][..0]) + 1;
    assert Placeholders([1, 0]) == Placeholders([1, 0][..1]);
    var t := Truncation(1, 1, Some(SliceKwargs(SHORT, 1, 1)));
    assert SumNat([1]) == 1 + SumNat([1][1..]);
    assert [1][..1] == [1];
    assert IsTruncation([1, 0], SHORT, 1, t);
  }

  lemma ShortTokens()
    ensures Readable([1, 0], SHORT) && ImageTokens([1, 0], SHORT) == [1] && PatchesPerImage(SHORT[GRID].rows) == [1]
  {
    assert [1, 0][..1] == [1] && Placeholders([1]) == Placeholders([1][..0]) + 1;
    assert Placeholders([1, 0]) == Placeholders([1, 0][..1]);
    assert Product([1]) == 1 * Product([1][1..]);
  }

  // ---------------------------------------------------------------- one sample

  function MultimodalError(s: TrainingSample): Option<PackError> {
    if s.mmTypeIds.Some? && |s.mmTypeIds.value| != |s.tokenIds| then Some(TypeIdsMisaligned)
    else if s.mmKwargs.Some? && GRID in s.mmKwargs.value && s.mmTypeIds.None? then Some(TypeIdsMissing)
    else None
  }

  /** Some token is loss-masked in and has a nonzero rl weight. */
  predicate HasRlMembers(s: TrainingSample) {
    if s.rlWeights.None? then exists i :: 0 <= i < |s.mask| && s.mask[i]
    else exists i :: 0 <= i < |s.mask| && i < |s.rlWeights.value| && s.mask[i] && s.rlWeights.value[i] != 0.0
  }

  predicate NeedsImageCut(s: TrainingSample, seqLen: nat) {
    |s.tokenIds| > seqLen && s.mmTypeIds.Some? && s.mmKwargs.Some?
  }

  /** Where the sample is cut, and the image tensors that go with the cut. */
  predicate CutFor(s: TrainingSample, seqLen: nat, t: Truncation) {
    if NeedsImageCut(s, seqLen) then IsTruncation(s.mmTypeIds.value, s.mmKwargs.value, seqLen, t)
    else t == Truncation(Min(seqLen, |s.tokenIds|), 0, s.mmKwargs)
  }

  function CutRouted(r: Option<RoutedExperts>, n: nat): Option<RoutedExperts> {
    if r.Some? then Some(r.value.(rows := Take(r.value.rows, n))) else None
  }

  /** The micro batch before its lengths are checked. */
  function CutSample(s: TrainingSample, t: Truncation): MicroBatch {
    var ids, n := Take(s.tokenIds, t.cut), t.cut;
    MicroBatch(
      ids, Take(s.mask, n), Take(if s.advantages.Some? then s.advantages.value else Filled(0.0, |s.tokenIds|), n), Take(s.logprobs, n),
      Range(|ids|), Take(s.temperatures, n), Filled(s.envName, |ids|), [|ids|], [|ids|],
      TakeOpt(s.refLogprobs, n), TakeOpt(s.rlWeights, n), TakeOpt(s.ceWeights, n), TakeOpt(s.refKlWeights, n), TakeOpt(s.mmTypeIds, n),
      None, CutRouted(s.routedExperts, n), t.kwargs)
  }

  /** An uncut sample keeps its streams whole, so a stream of the wrong length stays wrong. */
  function WholeSample(s: TrainingSample): MicroBatch {
    var ids := s.tokenIds;
    MicroBatch(
      ids, s.mask, if s.advantages.Some? then s.advantages.value else Filled(0.0, |ids|), s.logprobs,
      Range(|ids|), s.temperatures, Filled(s.envName, |ids|), [|ids|], [|ids|],
      s.refLogprobs, s.rlWeights, s.ceWeights, s.refKlWeights, s.mmTypeIds, None, s.routedExperts, s.mmKwargs)
  }

  function PreparedFields(s: TrainingSample, seqLen: nat, t: Truncation): MicroBatch {
    if |s.tokenIds| > seqLen then CutSample(s, t) else WholeSample(s)
  }

  /** What a successfully prepared sample is. */
  predicate IsPrepared(s: TrainingSample, seqLen: nat, m: MicroBatch, t: Truncation) {
    && CutFor(s, seqLen, t)
    && m == PreparedFields(s, seqLen, t)
    && Aligned(m) && Len(m) <= seqLen
    && m.inputIds == s.tokenIds[..Len(m)] && m.positionIds == Range(Len(m)) && m.seqLens == [Len(m)]
    && m.sequenceLengths == [Len(m)]
  }

  predicate Rejected(s: TrainingSample, seqLen: nat) {
    || MultimodalError(s).Some?
    || (s.advantages.None? && HasRlMembers(s))
    || s.envName == "all"
    || (NeedsImageCut(s, seqLen) && !Readable(s.mmTypeIds.value, s.mmKwargs.value))
  }

  /** `m` is the sample, cut to the limit without splitting an image. */
  ghost predicate Prepared(s: TrainingSample, seqLen: nat, m: MicroBatch) {
    exists t :: IsPrepared(s, seqLen, m, t)
  }

  /** The sample is refused: an explicit check fails, or its streams do not line up. */
  ghost predicate Unpreparable(s: TrainingSample, seqLen: nat) {
    Rejected(s, seqLen) || exists t :: CutFor(s, seqLen, t) && !Aligned(PreparedFields(s, seqLen, t))
  }

  lemma CutIsUnique(s: TrainingSample, seqLen: nat, t: Truncation, u: Truncation)
    requires !Rejected(s, seqLen) && CutFor(s, seqLen, t) && CutFor(s, seqLen, u)
    ensures t == u
  {
    hide IsTruncation;
    if NeedsImageCut(s, seqLen) {
      TruncationUnique(s.mmTypeIds.value, s.mmKwargs.value, seqLen, t, u);
    }
  }

  /** What is prepared is preparable, and in one way only. */
  lemma PreparedUnique(s: TrainingSample, seqLen: nat, m: MicroBatch, n: MicroBatch)
    requires !Rejected(s, seqLen) && Prepared(s, seqLen, m)
    ensures !Unpreparable(s, seqLen) && (Prepared(s, seqLen, n) ==> n == m)
  {
    hide CutFor;
    hide Aligned;
    hide PreparedFields;
    hide Rejected;
    var t :| IsPrepared(s, seqLen, m, t);
    forall u | CutFor(s, seqLen, u) ensures u == t { CutIsUnique(s, seqLen, t, u); }
  }

  method PrepareSample(s: TrainingSample, seqLen: nat) returns (r: PackResult<MicroBatch>)
    ensures r.Success? ==> Prepared(s, seqLen, r.value)
    ensures r.Failure? <==> Unpreparable(s, seqLen)
  {
    hide IsTruncation;
    hide Aligned;
    var error := MultimodalError(s);
    if error.Some? { return Failure(error.value); }
    if s.advantages.None? && HasRlMembers(s) { return Failure(AdvantagesMissing); }
    if s.envName == "all" { return Failure(ReservedEnvName); }
    var truncation := Truncation(Min(seqLen, |s.tokenIds|), 0, s.mmKwargs);
    if NeedsImageCut(s, seqLen) {
      var cut := TruncateMm(s.mmTypeIds.value, s.mmKwargs.value, seqLen);
      if cut.Failure? { return Failure(cut.error); }
      truncation := cut.value;
      CutWithin(s.mmTypeIds.value, s.mmKwargs.value, seqLen, truncation);
    }
    assert CutFor(s, seqLen, truncation) && !Rejected(s, seqLen);
    var m := PreparedFields(s, seqLen, truncation);
    if !Aligned(m) { return Failure(StreamsMisaligned); }
    assert Range(|m.inputIds|) == m.positionIds;
    assert IsPrepared(s, seqLen, m, truncation);
    PreparedUnique(s, seqLen, m, m);
    return Success(m);
  }

  lemma CutWithin(typeIds: seq<nat>, kwargs: map<string, Tensor>, seqLen: nat, t: Truncation)
    requires IsTruncation(typeIds, kwargs, seqLen, t)
    ensures t.cut <= seqLen
  {}

  /** The sample needs a cut, and starts inside an image that does not fit. */
  predicate StartsInOversizedImage(s: TrainingSample, seqLen: nat)
    requires !Rejected(s, seqLen)
  {
    && NeedsImageCut(s, seqLen) && s.mmTypeIds.value[0] != 0
    && NoImageFits(ImageTokens(s.mmTypeIds.value, s.mmKwargs.value), Placeholders(s.mmTypeIds.value[..seqLen]))
  }

  /** A prepared sample is empty exactly when it was, or there is no room, or it starts in an image that does not fit. */
  lemma PreparedEmpty(s: TrainingSample, seqLen: nat, m: MicroBatch)
    requires Prepared(s, seqLen, m) && !Rejected(s, seqLen)
    ensures Len(m) == 0 <==> s.tokenIds == [] || seqLen == 0 || StartsInOversizedImage(s, seqLen)
  {
    var t :| IsPrepared(s, seqLen, m, t);
    if NeedsImageCut(s, seqLen) && seqLen > 0 {
      CutToNothing(s.mmTypeIds.value, s.mmKwargs.value, seqLen, t);
    }
    hide IsTruncation;
    hide Aligned;
    hide NoImageFits;
    hide ImageTokens;
    hide Placeholders;
    hide Readable;
  }

  /** Complete tensors stay complete through preparation, and under the same keys. */
  lemma PreparedComplete(s: TrainingSample, seqLen: nat, m: MicroBatch)
    requires Prepared(s, seqLen, m) && m.mmKwargs.Some?
    ensures s.mmKwargs.Some? && m.mmKwargs.value.Keys == s.mmKwargs.value.Keys
    ensures Complete(s.mmKwargs.value) ==> Complete(m.mmKwargs.value)
    ensures Complete(s.mmKwargs.value) && NeedsImageCut(s, seqLen) ==> Exact(m.mmKwargs.value)
  {
    var t :| IsPrepared(s, seqLen, m, t);
    assert m.mmKwargs == t.kwargs;
    hide Aligned;
    if NeedsImageCut(s, seqLen) {
      CutKeys(s.mmTypeIds.value, s.mmKwargs.value, seqLen, t);
      if Complete(s.mmKwargs.value) { TruncatedExact(s.mmTypeIds.value, s.mmKwargs.value, seqLen, t); }
    }
    hide IsTruncation;
    hide PreparedFields;
    hide WellShaped;
  }

  lemma CutKeys(typeIds: seq<nat>, kwargs: map<string, Tensor>, seqLen: nat, t: Truncation)
    requires IsTruncation(typeIds, kwargs, seqLen, t) && t.kwargs.Some?
    ensures t.kwargs.value.Keys == kwargs.Keys
  {
    hide WholeImages;
    hide Readable;
  }
}
