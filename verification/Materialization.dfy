/** Turning the contents of a bin into one micro batch, and cutting it apart again. */
module Materialization {
  import opened Wrappers
  import opened Sequences
  import opened MicroBatches

  datatype Item = Item(lora: nat, sample: MicroBatch)

  predicate ItemsAligned(content: seq<Item>) {
    forall i :: 0 <= i < |content| ==> Aligned(content[i].sample)
  }

  /** One stream of the packed batch: the streams of the samples, one after the other. */
  function Gather<T>(content: seq<Item>, f: MicroBatch -> seq<T>): seq<T> {
    if content == [] then [] else f(content[0].sample) + Gather(content[1..], f)
  }

  lemma {:induction false} GatherConcat<T>(a: seq<Item>, b: seq<Item>, f: MicroBatch -> seq<T>)
    ensures Gather(a + b, f) == Gather(a, f) + Gather(b, f)
  {
    if a == [] {
      assert a + b == b;
    } else {
      assert (a + b)[1..] == a[1..] + b;
      GatherConcat(a[1..], b, f);
      assert f(a[0].sample) + (Gather(a[1..], f) + Gather(b, f)) == (f(a[0].sample) + Gather(a[1..], f)) + Gather(b, f);
    }
  }

  lemma GatherStep<T>(content: seq<Item>, i: nat, f: MicroBatch -> seq<T>)
    requires i < |content|
    ensures Gather(content[..i + 1], f) == Gather(content[..i], f) + f(content[i].sample)
  {
    assert content[..i + 1] == content[..i] + [content[i]];
    GatherConcat(content[..i], [content[i]], f);
    assert Gather([content[i]], f) == f(content[i].sample) + Gather([content[i]][1..], f) == f(content[i].sample);
  }

  function Lengths(content: seq<Item>): (r: seq<nat>)
    ensures |r| == |content|
  {
    if content == [] then [] else [Len(content[0].sample)] + Lengths(content[1..])
  }

  predicate SameLengths<T>(content: seq<Item>, f: MicroBatch -> seq<T>) {
    forall i :: 0 <= i < |content| ==> |f(content[i].sample)| == Len(content[i].sample)
  }

  lemma {:induction false} GatherLength<T>(content: seq<Item>, f: MicroBatch -> seq<T>)
    requires SameLengths(content, f)
    ensures |Gather(content, f)| == SumNat(Lengths(content))
  {
    if content != [] { GatherLength(content[1..], f); }
  }

  lemma {:induction false} GatherSeqLens(content: seq<Item>)
    requires ItemsAligned(content)
    ensures SumNat(Gather(content, SeqLensOf)) == SumNat(Lengths(content))
  {
    if content != [] {
      GatherSeqLens(content[1..]);
      SumNatConcat(SeqLensOf(content[0].sample), Gather(content[1..], SeqLensOf));
    }
  }

  // ---------------------------------------------------------------- optional streams and sidecars

  /** A stream materialises as soon as one packed sample carries it. */
  predicate AnyRef(content: seq<Item>) { exists i :: 0 <= i < |content| && content[i].sample.refLogprobs.Some? }
  predicate AnyRl(content: seq<Item>) { exists i :: 0 <= i < |content| && content[i].sample.rlWeights.Some? }
  predicate AnyCe(content: seq<Item>) { exists i :: 0 <= i < |content| && content[i].sample.ceWeights.Some? }
  predicate AnyRefKl(content: seq<Item>) { exists i :: 0 <= i < |content| && content[i].sample.refKlWeights.Some? }
  predicate AnyTypeIds(content: seq<Item>) { exists i :: 0 <= i < |content| && content[i].sample.mmTypeIds.Some? }

  function When<T>(present: bool, stream: seq<T>): Option<seq<T>> {
    if present then Some(stream) else None
  }

  function LoraCounts(content: seq<Item>, numLoras: nat): (r: seq<nat>)
    ensures |r| == numLoras
  {
    if content == [] then Filled<nat>(0, numLoras)
    else
      var rest := LoraCounts(content[..|content| - 1], numLoras);
      var last := content[|content| - 1];
      if last.lora < numLoras then rest[last.lora := rest[last.lora] + Len(last.sample)] else rest
  }

  predicate SameExperts(a: RoutedExperts, b: RoutedExperts) {
    a.dtype == b.dtype && a.layers == b.layers && a.topk == b.topk
  }

  /** Appending one sample's rows to the sidecar collected so far; layouts must agree. */
  function AppendRouted(soFar: Option<RoutedExperts>, next: Option<RoutedExperts>): PackResult<Option<RoutedExperts>> {
    if next.None? then Success(soFar)
    else if soFar.None? then Success(next)
    else if SameExperts(soFar.value, next.value) then Success(Some(soFar.value.(rows := soFar.value.rows + next.value.rows)))
    else Failure(RoutedExpertsMismatch)
  }

  /** The routed-experts sidecar of a prefix, or the error raised by the first sample that does not fit. */
  function PackRouted(content: seq<Item>, numLoras: nat): PackResult<Option<RoutedExperts>> {
    if content == [] then Success(None)
    else
      var last := content[|content| - 1];
      match PackRouted(content[..|content| - 1], numLoras)
      case Failure(e) => Failure(e)
      case Success(soFar) =>
        match AppendRouted(soFar, last.sample.routedExperts)
        case Failure(e) => Failure(e)
        case Success(routed) => if last.lora < numLoras then Success(routed) else Failure(UnknownLora)
  }

  /** `mm_kwargs[key].data += ...; mm_kwargs[key].shape[0] += ...` for one key. */
  function StackTensor(a: Tensor, b: Tensor): Tensor {
    Tensor(a.dtype, if a.shape != [] && b.shape != [] then [a.shape[0] + b.shape[0]] + a.shape[1..] else a.shape, a.rows + b.rows)
  }

  function StackKwargs(a: map<string, Tensor>, b: map<string, Tensor>): map<string, Tensor> {
    map k | k in a :: if k in b then StackTensor(a[k], b[k]) else a[k]
  }

  function AppendKwargs(soFar: Option<map<string, Tensor>>, next: Option<map<string, Tensor>>): Option<map<string, Tensor>> {
    if next.None? then soFar
    else if soFar.None? then next
    else Some(StackKwargs(soFar.value, next.value))
  }

  function PackKwargs(content: seq<Item>): Option<map<string, Tensor>> {
    if content == [] then None
    else
      var last := content[|content| - 1].sample.mmKwargs;
      AppendKwargs(PackKwargs(content[..|content| - 1]), last)
  }

  // ---------------------------------------------------------------- the packed batch

  function Packed(content: seq<Item>, numLoras: nat, routed: Option<RoutedExperts>): MicroBatch {
    MicroBatch(
      Gather(content, IdsOf), Gather(content, MaskOf), Gather(content, AdvantagesOf), Gather(content, LogprobsOf),
      Gather(content, PositionsOf), Gather(content, TemperaturesOf), Gather(content, EnvNamesOf),
      Lengths(content), Gather(content, SeqLensOf),
      When(AnyRef(content), Gather(content, RefLogprobsOf)),
      When(AnyRl(content), Gather(content, RlOf)),
      When(AnyCe(content), Gather(content, CeOf)),
      When(AnyRefKl(content), Gather(content, RefKlOf)),
      When(AnyTypeIds(content), Gather(content, TypeIdsOf)),
      Some(LoraCounts(content, numLoras)), routed, PackKwargs(content))
  }

  function MaterializeBin(content: seq<Item>, numLoras: nat): PackResult<MicroBatch> {
    match PackRouted(content, numLoras)
    case Failure(e) => Failure(e)
    case Success(routed) => Success(Packed(content, numLoras, routed))
  }

  function Extend<T>(stream: Option<seq<T>>, more: seq<T>): Option<seq<T>> {
    if stream.Some? then Some(stream.value + more) else None
  }

  lemma LoraCountsStep(content: seq<Item>, i: nat, numLoras: nat)
    requires i < |content| && content[i].lora < numLoras
    ensures var before := LoraCounts(content[..i], numLoras);
            LoraCounts(content[..i + 1], numLoras) == before[content[i].lora := before[content[i].lora] + Len(content[i].sample)]
  {
    assert content[..i + 1][..i] == content[..i];
  }

  lemma LengthsStep(content: seq<Item>, i: nat)
    requires i < |content|
    ensures Lengths(content[..i + 1]) == Lengths(content[..i]) + [Len(content[i].sample)]
  {
    assert content[..i + 1] == content[..i] + [content[i]];
    LengthsConcat(content[..i], [content[i]]);
    assert Lengths([content[i]]) == [Len(content[i].sample)] + Lengths([content[i]][1..]);
  }

  lemma {:induction false} RoutedFailsEarly(content: seq<Item>, i: nat, numLoras: nat)
    requires i <= |content| && PackRouted(content[..i], numLoras).Failure?
    ensures PackRouted(content, numLoras) == PackRouted(content[..i], numLoras)
    decreases |content| - i
  {
    if i == |content| {
      assert content[..i] == content;
    } else {
      assert content[..i + 1][..i] == content[..i];
      RoutedFailsEarly(content, i + 1, numLoras);
    }
  }

  /** The per-sample step of the streams that every sample carries. */
  lemma GatherStepDense(content: seq<Item>, i: nat)
    requires i < |content|
    ensures Gather(content[..i + 1], IdsOf) == Gather(content[..i], IdsOf) + content[i].sample.inputIds
    ensures Gather(content[..i + 1], MaskOf) == Gather(content[..i], MaskOf) + content[i].sample.lossMask
    ensures Gather(content[..i + 1], AdvantagesOf) == Gather(content[..i], AdvantagesOf) + content[i].sample.advantages
    ensures Gather(content[..i + 1], LogprobsOf) == Gather(content[..i], LogprobsOf) + content[i].sample.logprobs
    ensures Gather(content[..i + 1], PositionsOf) == Gather(content[..i], PositionsOf) + content[i].sample.positionIds
    ensures Gather(content[..i + 1], TemperaturesOf) == Gather(content[..i], TemperaturesOf) + content[i].sample.temperatures
    ensures Gather(content[..i + 1], EnvNamesOf) == Gather(content[..i], EnvNamesOf) + content[i].sample.envNames
    ensures Gather(content[..i + 1], SeqLensOf) == Gather(content[..i], SeqLensOf) + content[i].sample.seqLens
  {
    hide Gather;
    GatherStep(content, i, IdsOf);
    GatherStep(content, i, MaskOf);
    GatherStep(content, i, AdvantagesOf);
    GatherStep(content, i, LogprobsOf);
    GatherStep(content, i, PositionsOf);
    GatherStep(content, i, TemperaturesOf);
    GatherStep(content, i, EnvNamesOf);
    GatherStep(content, i, SeqLensOf);
  }

  method Materialize(content: seq<Item>, numLoras: nat) returns (r: PackResult<MicroBatch>)
    ensures r == MaterializeBin(content, numLoras)
  {
    hide Gather;
    hide PackKwargs;
    hide LoraCounts;
    hide Lengths;
    hide AnyRef;
    hide AnyRl;
    hide AnyCe;
    hide AnyRefKl;
    hide AnyTypeIds;
    var inputIds, lossMask, advantages, logprobs, positionIds, temperatures, envNames := [], [], [], [], [], [], [];
    var sequenceLengths, seqLens := [], [];
    var refLogprobs := When(AnyRef(content), []);
    var rlWeights, ceWeights, refKlWeights := When(AnyRl(content), []), When(AnyCe(content), []), When(AnyRefKl(content), []);
    var mmTypeIds := When(AnyTypeIds(content), []);
    var routed: Option<RoutedExperts>, mmKwargs: Option<map<string, Tensor>> := None, None;
    var loraNumTokens := Filled<nat>(0, numLoras);
    NothingGathered(content, numLoras);
    for i := 0 to |content|
      invariant inputIds == Gather(content[..i], IdsOf) && lossMask == Gather(content[..i], MaskOf)
      invariant advantages == Gather(content[..i], AdvantagesOf) && logprobs == Gather(content[..i], LogprobsOf)
      invariant positionIds == Gather(content[..i], PositionsOf) && temperatures == Gather(content[..i], TemperaturesOf)
      invariant envNames == Gather(content[..i], EnvNamesOf) && seqLens == Gather(content[..i], SeqLensOf)
      invariant sequenceLengths == Lengths(content[..i])
      invariant refLogprobs == When(AnyRef(content), Gather(content[..i], RefLogprobsOf))
      invariant rlWeights == When(AnyRl(content), Gather(content[..i], RlOf))
      invariant ceWeights == When(AnyCe(content), Gather(content[..i], CeOf))
      invariant refKlWeights == When(AnyRefKl(content), Gather(content[..i], RefKlOf))
      invariant mmTypeIds == When(AnyTypeIds(content), Gather(content[..i], TypeIdsOf))
      invariant loraNumTokens == LoraCounts(content[..i], numLoras)
      invariant PackRouted(content[..i], numLoras) == Success(routed)
      invariant mmKwargs == PackKwargs(content[..i])
    {
      var sample, n := content[i].sample, Len(content[i].sample);
      GatherStepDense(content, i);
      GatherStep(content, i, RefLogprobsOf);
      GatherStep(content, i, RlOf);
      GatherStep(content, i, CeOf);
      GatherStep(content, i, RefKlOf);
      GatherStep(content, i, TypeIdsOf);
      SidecarStep(content, i, numLoras, routed);
      inputIds, lossMask, advantages := inputIds + sample.inputIds, lossMask + sample.lossMask, advantages + sample.advantages;
      logprobs, positionIds := logprobs + sample.logprobs, positionIds + sample.positionIds;
      temperatures, envNames := temperatures + sample.temperatures, envNames + sample.envNames;
      refLogprobs := Extend(refLogprobs, Or(sample.refLogprobs, 0.0, n));
      rlWeights := Extend(rlWeights, Or(sample.rlWeights, 1.0, n));
      ceWeights := Extend(ceWeights, Or(sample.ceWeights, 0.0, n));
      refKlWeights := Extend(refKlWeights, Or(sample.refKlWeights, 0.0, n));
      mmTypeIds := Extend(mmTypeIds, Or(sample.mmTypeIds, 0, n));
      var appended := AppendRouted(routed, sample.routedExperts);
      if appended.Failure? {
        RoutedFailsEarly(content, i + 1, numLoras);
        return Failure(appended.error);
      }
      routed := appended.value;
      mmKwargs := AppendKwargs(mmKwargs, sample.mmKwargs);
      seqLens := seqLens + sample.seqLens;
      if content[i].lora >= numLoras {
        RoutedFailsEarly(content, i + 1, numLoras);
        return Failure(UnknownLora);
      }
      LoraCountsStep(content, i, numLoras);
      loraNumTokens := loraNumTokens[content[i].lora := loraNumTokens[content[i].lora] + n];
      LengthsStep(content, i);
      sequenceLengths := sequenceLengths + [n];
    }
    assert content[..|content|] == content;
    return Success(MicroBatch(inputIds, lossMask, advantages, logprobs, positionIds, temperatures, envNames, sequenceLengths, seqLens,
                              refLogprobs, rlWeights, ceWeights, refKlWeights, mmTypeIds, Some(loraNumTokens), routed, mmKwargs));
  }

  lemma NothingGathered(content: seq<Item>, numLoras: nat)
    ensures content[..0] == [] && Gather(content[..0], IdsOf) == [] && Gather(content[..0], MaskOf) == []
    ensures Gather(content[..0], AdvantagesOf) == [] && Gather(content[..0], LogprobsOf) == [] && Gather(content[..0], PositionsOf) == []
    ensures Gather(content[..0], TemperaturesOf) == [] && Gather(content[..0], EnvNamesOf) == [] && Gather(content[..0], SeqLensOf) == []
    ensures Gather(content[..0], RefLogprobsOf) == [] && Gather(content[..0], RlOf) == [] && Gather(content[..0], CeOf) == []
    ensures Gather(content[..0], RefKlOf) == [] && Gather(content[..0], TypeIdsOf) == [] && Lengths(content[..0]) == []
    ensures LoraCounts(content[..0], numLoras) == Filled<nat>(0, numLoras) && PackKwargs(content[..0]) == None
  {}

  lemma SidecarStep(content: seq<Item>, i: nat, numLoras: nat, routed: Option<RoutedExperts>)
    requires i < |content| && PackRouted(content[..i], numLoras) == Success(routed)
    ensures PackKwargs(content[..i + 1]) == AppendKwargs(PackKwargs(content[..i]), content[i].sample.mmKwargs)
    ensures PackRouted(content[..i + 1], numLoras) ==
            match AppendRouted(routed, content[i].sample.routedExperts)
            case Failure(e) => Failure(e)
            case Success(r) => if content[i].lora < numLoras then Success(r) else Failure(UnknownLora)
  {
    assert content[..i + 1][..i] == content[..i];
  }

  // ---------------------------------------------------------------- alignment and records

  predicate UniformRouting(content: seq<Item>) {
    forall i, j :: 0 <= i < |content| && 0 <= j < |content| ==>
      content[i].sample.routedExperts.Some? == content[j].sample.routedExperts.Some?
  }

  lemma {:induction false} RoutedRows(content: seq<Item>, numLoras: nat)
    requires PackRouted(content, numLoras).Success?
    ensures PackRouted(content, numLoras).value.Some? <==> exists i :: 0 <= i < |content| && content[i].sample.routedExperts.Some?
    ensures PackRouted(content, numLoras).value.Some? ==> PackRouted(content, numLoras).value.value.rows == Gather(content, RoutedRowsOf)
    ensures PackRouted(content, numLoras).value.None? ==> Gather(content, RoutedRowsOf) == []
  {
    if content != [] {
      var n := |content| - 1;
      RoutedRows(content[..n], numLoras);
      GatherStep(content, n, RoutedRowsOf);
      assert content[..n + 1] == content;
    }
  }

  lemma AllSameLengths(content: seq<Item>)
    requires ItemsAligned(content)
    ensures SameLengths(content, IdsOf) && SameLengths(content, MaskOf) && SameLengths(content, AdvantagesOf)
    ensures SameLengths(content, LogprobsOf) && SameLengths(content, PositionsOf) && SameLengths(content, TemperaturesOf)
    ensures SameLengths(content, EnvNamesOf) && SameLengths(content, RefLogprobsOf) && SameLengths(content, RlOf)
    ensures SameLengths(content, CeOf) && SameLengths(content, RefKlOf) && SameLengths(content, TypeIdsOf)
    ensures UniformRouting(content) && content != [] && content[0].sample.routedExperts.Some? ==> SameLengths(content, RoutedRowsOf)
  {}

  /** The assertions at the end of materialisation, and the alignment check before sending, never fire. */
  lemma PackedAligned(content: seq<Item>, numLoras: nat)
    requires ItemsAligned(content) && UniformRouting(content) && MaterializeBin(content, numLoras).Success?
    ensures Aligned(MaterializeBin(content, numLoras).value)
  {
    hide Gather;
    AllSameLengths(content);
    GatherLength(content, IdsOf);
    GatherLength(content, MaskOf);
    GatherLength(content, AdvantagesOf);
    GatherLength(content, LogprobsOf);
    GatherLength(content, PositionsOf);
    GatherLength(content, TemperaturesOf);
    GatherLength(content, EnvNamesOf);
    GatherLength(content, RefLogprobsOf);
    GatherLength(content, RlOf);
    GatherLength(content, CeOf);
    GatherLength(content, RefKlOf);
    GatherLength(content, TypeIdsOf);
    GatherSeqLens(content);
    RoutedRows(content, numLoras);
    if PackRouted(content, numLoras).value.Some? {
      GatherLength(content, RoutedRowsOf);
    }
  }

  /** A materialised stream, or its absence, reads as the concatenation of the samples' streams or fills. */
  lemma {:induction false} AbsentFill<T>(content: seq<Item>, f: MicroBatch -> seq<T>, fill: T)
    requires forall i :: 0 <= i < |content| ==> f(content[i].sample) == Filled(fill, Len(content[i].sample))
    ensures Gather(content, f) == Filled(fill, SumNat(Lengths(content)))
  {
    if content != [] { AbsentFill(content[1..], f, fill); }
  }

  lemma PackedReadsRl(content: seq<Item>, numLoras: nat, routed: Option<RoutedExperts>)
    requires ItemsAligned(content)
    ensures RlOf(Packed(content, numLoras, routed)) == Gather(content, RlOf)
  {
    AllSameLengths(content);
    GatherLength(content, IdsOf);
    if !AnyRl(content) { AbsentFill(content, RlOf, 1.0); }
  }

  lemma PackedReadsComponents(content: seq<Item>, numLoras: nat, routed: Option<RoutedExperts>)
    requires ItemsAligned(content)
    ensures CeOf(Packed(content, numLoras, routed)) == Gather(content, CeOf)
    ensures RefKlOf(Packed(content, numLoras, routed)) == Gather(content, RefKlOf)
  {
    AllSameLengths(content);
    GatherLength(content, IdsOf);
    if !AnyCe(content) { AbsentFill(content, CeOf, 0.0); }
    if !AnyRefKl(content) { AbsentFill(content, RefKlOf, 0.0); }
  }

  lemma PackedReadsOthers(content: seq<Item>, numLoras: nat, routed: Option<RoutedExperts>)
    requires ItemsAligned(content)
    ensures RefLogprobsOf(Packed(content, numLoras, routed)) == Gather(content, RefLogprobsOf)
    ensures TypeIdsOf(Packed(content, numLoras, routed)) == Gather(content, TypeIdsOf)
  {
    AllSameLengths(content);
    GatherLength(content, IdsOf);
    if !AnyRef(content) { AbsentFill(content, RefLogprobsOf, 0.0); }
    if !AnyTypeIds(content) { AbsentFill(content, TypeIdsOf, 0); }
  }

  function FlatRecords(content: seq<Item>): seq<TokenRecord>
    requires ItemsAligned(content)
  {
    if content == [] then [] else Records(content[0].sample) + FlatRecords(content[1..])
  }

  lemma {:induction false} FlatRecordsLength(content: seq<Item>)
    requires ItemsAligned(content)
    ensures |FlatRecords(content)| == SumNat(Lengths(content))
  {
    if content != [] { FlatRecordsLength(content[1..]); }
  }

  lemma GatherAt<T>(content: seq<Item>, f: MicroBatch -> seq<T>, g: nat)
    requires content != [] && SameLengths(content, f) && g < SumNat(Lengths(content))
    ensures |Gather(content, f)| == SumNat(Lengths(content)) && |Gather(content[1..], f)| == SumNat(Lengths(content[1..]))
    ensures Gather(content, f)[g] ==
            if g < Len(content[0].sample) then f(content[0].sample)[g] else Gather(content[1..], f)[g - Len(content[0].sample)]
  {
    GatherLength(content, f);
    assert SameLengths(content[1..], f) by {
      forall i | 0 <= i < |content| - 1 ensures |f(content[1..][i].sample)| == Len(content[1..][i].sample) {
        assert content[1..][i] == content[i + 1];
      }
    }
    GatherLength(content[1..], f);
    ConcatAt(f(content[0].sample), Gather(content[1..], f), g);
  }

  lemma ConcatAt<T>(a: seq<T>, b: seq<T>, g: nat)
    requires g < |a| + |b|
    ensures (a + b)[g] == if g < |a| then a[g] else b[g - |a|]
  {}

  predicate GathersTo(content: seq<Item>, g: nat, r: TokenRecord) {
    && g < |Gather(content, IdsOf)| && g < |Gather(content, MaskOf)| && g < |Gather(content, AdvantagesOf)|
    && g < |Gather(content, LogprobsOf)| && g < |Gather(content, PositionsOf)| && g < |Gather(content, TemperaturesOf)|
    && g < |Gather(content, EnvNamesOf)| && g < |Gather(content, RefLogprobsOf)| && g < |Gather(content, RlOf)|
    && g < |Gather(content, CeOf)| && g < |Gather(content, RefKlOf)| && g < |Gather(content, TypeIdsOf)|
    && r == TokenRecord(Gather(content, IdsOf)[g], Gather(content, MaskOf)[g], Gather(content, AdvantagesOf)[g],
                        Gather(content, LogprobsOf)[g], Gather(content, PositionsOf)[g], Gather(content, TemperaturesOf)[g],
                        Gather(content, EnvNamesOf)[g], Gather(content, RefLogprobsOf)[g], Gather(content, RlOf)[g],
                        Gather(content, CeOf)[g], Gather(content, RefKlOf)[g], Gather(content, TypeIdsOf)[g])
  }

  lemma {:induction false} RecordsGather(content: seq<Item>, g: nat)
    requires ItemsAligned(content) && g < |FlatRecords(content)|
    ensures GathersTo(content, g, FlatRecords(content)[g])
  {
    hide Gather;
    hide AnyRef;
    FlatRecordsLength(content);
    AllSameLengths(content);
    GatherAt(content, IdsOf, g);
    GatherAt(content, MaskOf, g);
    GatherAt(content, AdvantagesOf, g);
    GatherAt(content, LogprobsOf, g);
    GatherAt(content, PositionsOf, g);
    GatherAt(content, TemperaturesOf, g);
    GatherAt(content, EnvNamesOf, g);
    GatherAt(content, RefLogprobsOf, g);
    GatherAt(content, RlOf, g);
    GatherAt(content, CeOf, g);
    GatherAt(content, RefKlOf, g);
    GatherAt(content, TypeIdsOf, g);
    if g >= Len(content[0].sample) {
      RecordsGather(content[1..], g - Len(content[0].sample));
    }
  }

  /** Packing loses no token and changes none: the records of the packed batch are the samples' records in order. */
  lemma PackedRecords(content: seq<Item>, numLoras: nat)
    requires ItemsAligned(content) && UniformRouting(content) && MaterializeBin(content, numLoras).Success?
    ensures Aligned(MaterializeBin(content, numLoras).value)
    ensures Records(MaterializeBin(content, numLoras).value) == FlatRecords(content)
  {
    hide Gather;
    PackedAligned(content, numLoras);
    var p := MaterializeBin(content, numLoras).value;
    PackedReadsRl(content, numLoras, p.routedExperts);
    PackedReadsComponents(content, numLoras, p.routedExperts);
    PackedReadsOthers(content, numLoras, p.routedExperts);
    FlatRecordsLength(content);
    AllSameLengths(content);
    GatherLength(content, IdsOf);
    forall g | 0 <= g < Len(p) ensures Records(p)[g] == FlatRecords(content)[g] {
      RecordsGather(content, g);
    }
  }

  // ---------------------------------------------------------------- cutting a packed stream apart

  function Cut<T>(s: seq<T>, lens: seq<nat>): (r: seq<seq<T>>)
    requires SumNat(lens) <= |s|
    ensures |r| == |lens|
  {
    if lens == [] then [] else [s[..lens[0]]] + Cut(s[lens[0]..], lens[1..])
  }

  lemma {:induction false} CutGather<T>(content: seq<Item>, f: MicroBatch -> seq<T>, i: nat)
    requires SameLengths(content, f) && i < |content|
    ensures SumNat(Lengths(content)) <= |Gather(content, f)|
    ensures Cut(Gather(content, f), Lengths(content))[i] == f(content[i].sample)
  {
    GatherLength(content, f);
    var n := Len(content[0].sample);
    assert Gather(content, f)[..n] == f(content[0].sample);
    if i > 0 {
      assert Gather(content, f)[n..] == Gather(content[1..], f);
      CutGather(content[1..], f, i - 1);
    }
  }

  predicate CutsTo<T(==)>(stream: seq<T>, lens: seq<nat>, i: nat, expected: seq<T>) {
    SumNat(lens) <= |stream| && i < |lens| && Cut(stream, lens)[i] == expected
  }

  /** Cutting every stream of a packed batch at its sequence lengths gives back each sample's stream, or its fill. */
  lemma UnpackRestoresSample(content: seq<Item>, numLoras: nat, i: nat)
    requires ItemsAligned(content) && UniformRouting(content) && MaterializeBin(content, numLoras).Success? && i < |content|
    ensures var p := MaterializeBin(content, numLoras).value; var s := content[i].sample;
            && CutsTo(p.inputIds, p.sequenceLengths, i, s.inputIds)
            && CutsTo(p.lossMask, p.sequenceLengths, i, s.lossMask)
            && CutsTo(p.advantages, p.sequenceLengths, i, s.advantages)
            && CutsTo(p.logprobs, p.sequenceLengths, i, s.logprobs)
            && CutsTo(p.positionIds, p.sequenceLengths, i, s.positionIds)
            && CutsTo(p.temperatures, p.sequenceLengths, i, s.temperatures)
            && CutsTo(p.envNames, p.sequenceLengths, i, s.envNames)
  {
    hide Gather;
    hide Cut;
    AllSameLengths(content);
    CutGather(content, IdsOf, i);
    CutGather(content, MaskOf, i);
    CutGather(content, AdvantagesOf, i);
    CutGather(content, LogprobsOf, i);
    CutGather(content, PositionsOf, i);
    CutGather(content, TemperaturesOf, i);
    CutGather(content, EnvNamesOf, i);
  }

  lemma UnpackRestoresOptional(content: seq<Item>, numLoras: nat, i: nat)
    requires ItemsAligned(content) && UniformRouting(content) && MaterializeBin(content, numLoras).Success? && i < |content|
    ensures var p := MaterializeBin(content, numLoras).value; var s := content[i].sample;
            && (p.refLogprobs.Some? ==> CutsTo(p.refLogprobs.value, p.sequenceLengths, i, Or(s.refLogprobs, 0.0, Len(s))))
            && (p.rlWeights.Some? ==> CutsTo(p.rlWeights.value, p.sequenceLengths, i, Or(s.rlWeights, 1.0, Len(s))))
            && (p.ceWeights.Some? ==> CutsTo(p.ceWeights.value, p.sequenceLengths, i, Or(s.ceWeights, 0.0, Len(s))))
            && (p.refKlWeights.Some? ==> CutsTo(p.refKlWeights.value, p.sequenceLengths, i, Or(s.refKlWeights, 0.0, Len(s))))
            && (p.mmTypeIds.Some? ==> CutsTo(p.mmTypeIds.value, p.sequenceLengths, i, Or(s.mmTypeIds, 0, Len(s))))
            && (p.routedExperts.Some? ==> s.routedExperts.Some? && CutsTo(p.routedExperts.value.rows, p.sequenceLengths, i, s.routedExperts.value.rows))
    ensures var p := MaterializeBin(content, numLoras).value; var s := content[i].sample;
            && (s.refLogprobs.Some? ==> p.refLogprobs.Some?) && (s.rlWeights.Some? ==> p.rlWeights.Some?)
            && (s.ceWeights.Some? ==> p.ceWeights.Some?) && (s.refKlWeights.Some? ==> p.refKlWeights.Some?)
            && (s.mmTypeIds.Some? ==> p.mmTypeIds.Some?) && (s.routedExperts.Some? ==> p.routedExperts.Some?)
  {
    hide Gather;
    hide Cut;
    AllSameLengths(content);
    CutGather(content, RefLogprobsOf, i);
    CutGather(content, RlOf, i);
    CutGather(content, CeOf, i);
    CutGather(content, RefKlOf, i);
    CutGather(content, TypeIdsOf, i);
    RoutedRows(content, numLoras);
    if content[i].sample.routedExperts.Some? {
      assert content[0].sample.routedExperts.Some?;
      CutGather(content, RoutedRowsOf, i);
    }
  }

  lemma {:induction false} LoraCountsTotal(content: seq<Item>, numLoras: nat)
    requires PackRouted(content, numLoras).Success?
    ensures SumNat(LoraCounts(content, numLoras)) == SumNat(Lengths(content))
  {
    if content == [] {
      ZeroSum(numLoras);
    } else {
      var n := |content| - 1;
      LoraCountsTotal(content[..n], numLoras);
      assert content == content[..n] + [content[n]];
      LengthsConcat(content[..n], [content[n]]);
      SumNatConcat(Lengths(content[..n]), Lengths([content[n]]));
      SumNatUpdate(LoraCounts(content[..n], numLoras), content[n].lora, LoraCounts(content[..n], numLoras)[content[n].lora] + Len(content[n].sample));
      assert Lengths([content[n]]) == [Len(content[n].sample)] + Lengths([content[n]][1..]);
    }
  }

  lemma {:induction false} ZeroSum(n: nat)
    ensures SumNat(Filled<nat>(0, n)) == 0
  {
    if n > 0 {
      assert Filled<nat>(0, n)[1..] == Filled<nat>(0, n - 1);
      ZeroSum(n - 1);
    }
  }

  lemma {:induction false} LengthsConcat(a: seq<Item>, b: seq<Item>)
    ensures Lengths(a + b) == Lengths(a) + Lengths(b)
  {
    if a == [] {
      assert a + b == b;
    } else {
      assert (a + b)[1..] == a[1..] + b;
      LengthsConcat(a[1..], b);
    }
  }

  lemma {:induction false} SumNatUpdate(s: seq<nat>, i: nat, x: nat)
    requires i < |s|
    ensures SumNat(s[i := x]) == SumNat(s) - s[i] + x
  {
    if i == 0 {
      assert s[i := x][1..] == s[1..];
    } else {
      assert s[i := x][1..] == s[1..][i - 1 := x];
      SumNatUpdate(s[1..], i - 1, x);
    }
  }

  // ---------------------------------------------------------------- multimodal sidecars

  /** Every multimodal sample carries this key, with a shape that matches its rows. */
  predicate CarryKey(content: seq<Item>, key: string) {
    forall i :: 0 <= i < |content| && content[i].sample.mmKwargs.Some? ==>
      key in content[i].sample.mmKwargs.value && WellShaped(content[i].sample.mmKwargs.value[key])
  }

  function KeyRows(content: seq<Item>, key: string): seq<Row> {
    if content == [] then []
    else
      var last := content[|content| - 1].sample.mmKwargs;
      KeyRows(content[..|content| - 1], key) + if last.Some? && key in last.value then last.value[key].rows else []
  }

  predicate Stacked(packed: Option<map<string, Tensor>>, key: string, rows: seq<Row>) {
    match packed
    case None => rows == []
    case Some(m) => key in m && WellShaped(m[key]) && m[key].rows == rows
  }

  lemma AppendKeepsStacked(soFar: Option<map<string, Tensor>>, next: Option<map<string, Tensor>>, key: string, rows: seq<Row>)
    requires Stacked(soFar, key, rows)
    requires next.Some? ==> key in next.value && WellShaped(next.value[key])
    ensures Stacked(AppendKwargs(soFar, next), key, rows + if next.Some? then next.value[key].rows else [])
  {}

  /** Stacked tensors hold exactly the samples' rows in order, and their declared shape says so. */
  lemma {:induction false} KwargsStacked(content: seq<Item>, key: string)
    requires CarryKey(content, key)
    ensures Stacked(PackKwargs(content), key, KeyRows(content, key))
  {
    hide Stacked;
    if content == [] {
      EmptyStacked(key);
    } else {
      var n := |content| - 1;
      KwargsStacked(content[..n], key);
      AppendKeepsStacked(PackKwargs(content[..n]), content[n].sample.mmKwargs, key, KeyRows(content[..n], key));
    }
  }

  lemma EmptyStacked(key: string)
    ensures Stacked(None, key, [])
  {}
}
