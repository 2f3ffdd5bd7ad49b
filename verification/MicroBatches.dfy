/**
 Micro batches as the packer builds them: aligned per-token streams, optional component streams with
 their identity fill, and row-wise sidecar tensors.
 */
module MicroBatches {
  import opened Wrappers
  import opened Sequences

  type PackResult<+T> = Result<T, PackError>

  datatype PackError =
    | TypeIdsMisaligned
    | TypeIdsMissing
    | AdvantagesMissing
    | StreamsMisaligned
    | UnreadableImages
    | RoutedExpertsMismatch
    | UnknownLora
    | ReservedEnvName

  /** The decoded elements of one row of a tensor stacked along its first dimension. */
  type Row = seq<nat>

  datatype Tensor = Tensor(dtype: string, shape: seq<nat>, rows: seq<Row>)

  /** The declared number of rows is the number of rows there are. */
  predicate WellShaped(t: Tensor) {
    t.shape != [] && t.shape[0] == |t.rows|
  }

  datatype RoutedExperts = RoutedExperts(dtype: string, layers: nat, topk: nat, rows: seq<Row>)

  datatype MicroBatch = MicroBatch(
    inputIds: seq<int>,
    lossMask: seq<bool>,
    advantages: seq<real>,
    logprobs: seq<real>,
    positionIds: seq<nat>,
    temperatures: seq<real>,
    envNames: seq<string>,
    sequenceLengths: seq<nat>,
    seqLens: seq<nat>,
    refLogprobs: Option<seq<real>>,
    rlWeights: Option<seq<real>>,
    ceWeights: Option<seq<real>>,
    refKlWeights: Option<seq<real>>,
    mmTypeIds: Option<seq<nat>>,
    loraNumTokens: Option<seq<nat>>,
    routedExperts: Option<RoutedExperts>,
    mmKwargs: Option<map<string, Tensor>>)

  function Len(s: MicroBatch): nat { |s.inputIds| }

  // Absent streams read as their identity: weight 1.0 for rl, 0.0 for the others.

  function Filled<T>(x: T, n: nat): (r: seq<T>)
    ensures |r| == n && forall i :: 0 <= i < n ==> r[i] == x
  {
    seq(n, _ => x)
  }

  function Or<T>(stream: Option<seq<T>>, fill: T, n: nat): seq<T> {
    match stream
    case Some(s) => s
    case None => Filled(fill, n)
  }

  function IdsOf(s: MicroBatch): seq<int> { s.inputIds }
  function MaskOf(s: MicroBatch): seq<bool> { s.lossMask }
  function AdvantagesOf(s: MicroBatch): seq<real> { s.advantages }
  function LogprobsOf(s: MicroBatch): seq<real> { s.logprobs }
  function PositionsOf(s: MicroBatch): seq<nat> { s.positionIds }
  function TemperaturesOf(s: MicroBatch): seq<real> { s.temperatures }
  function EnvNamesOf(s: MicroBatch): seq<string> { s.envNames }
  function SeqLensOf(s: MicroBatch): seq<nat> { s.seqLens }
  function RefLogprobsOf(s: MicroBatch): seq<real> { Or(s.refLogprobs, 0.0, Len(s)) }
  function RlOf(s: MicroBatch): seq<real> { Or(s.rlWeights, 1.0, Len(s)) }
  function CeOf(s: MicroBatch): seq<real> { Or(s.ceWeights, 0.0, Len(s)) }
  function RefKlOf(s: MicroBatch): seq<real> { Or(s.refKlWeights, 0.0, Len(s)) }
  function TypeIdsOf(s: MicroBatch): seq<nat> { Or(s.mmTypeIds, 0, Len(s)) }
  function RoutedRowsOf(s: MicroBatch): seq<Row> { if s.routedExperts.Some? then s.routedExperts.value.rows else [] }

  predicate StreamFits<T>(stream: Option<seq<T>>, n: nat) {
    stream.Some? ==> |stream.value| == n
  }

  /** Every per-token array is position-aligned with the token ids. */
  predicate Aligned(s: MicroBatch) {
    var n := Len(s);
    && |s.lossMask| == n && |s.advantages| == n && |s.logprobs| == n && |s.positionIds| == n
    && |s.temperatures| == n && |s.envNames| == n
    && StreamFits(s.refLogprobs, n) && StreamFits(s.rlWeights, n) && StreamFits(s.ceWeights, n)
    && StreamFits(s.refKlWeights, n) && StreamFits(s.mmTypeIds, n)
    && (s.routedExperts.Some? ==> |s.routedExperts.value.rows| == n)
    && SumNat(s.sequenceLengths) == n && SumNat(s.seqLens) == n
  }

  function SumNat(s: seq<nat>): nat {
    if s == [] then 0 else s[0] + SumNat(s[1..])
  }

  lemma {:induction false} SumNatConcat(s: seq<nat>, t: seq<nat>)
    ensures SumNat(s + t) == SumNat(s) + SumNat(t)
  {
    if s == [] {
      assert s + t == t;
    } else {
      assert (s + t)[1..] == s[1..] + t;
      SumNatConcat(s[1..], t);
    }
  }

  // ---------------------------------------------------------------- token records

  /** Everything the trainer reads about one token. */
  datatype TokenRecord = TokenRecord(
    id: int, masked: bool, advantage: real, logprob: real, position: nat, temperature: real, env: string,
    refLogprob: real, rl: real, ce: real, refKl: real, typeId: nat)

  /** A token takes part in training when its loss mask is set or a ce / ref_kl weight is not zero. */
  predicate Trains(r: TokenRecord) {
    r.masked || r.ce != 0.0 || r.refKl != 0.0
  }

  function RecordAt(s: MicroBatch, i: nat): TokenRecord
    requires Aligned(s) && i < Len(s)
  {
    TokenRecord(s.inputIds[i], s.lossMask[i], s.advantages[i], s.logprobs[i], s.positionIds[i], s.temperatures[i],
                s.envNames[i], RefLogprobsOf(s)[i], RlOf(s)[i], CeOf(s)[i], RefKlOf(s)[i], TypeIdsOf(s)[i])
  }

  function Records(s: MicroBatch): (r: seq<TokenRecord>)
    requires Aligned(s)
    ensures |r| == Len(s)
  {
    seq(Len(s), i requires 0 <= i < Len(s) => RecordAt(s, i))
  }

  function TrainedOnly(records: seq<TokenRecord>): seq<TokenRecord> {
    if records == [] then []
    else if Trains(records[0]) then [records[0]] + TrainedOnly(records[1..])
    else TrainedOnly(records[1..])
  }

  lemma {:induction false} TrainedConcat(a: seq<TokenRecord>, b: seq<TokenRecord>)
    ensures TrainedOnly(a + b) == TrainedOnly(a) + TrainedOnly(b)
  {
    if a == [] {
      assert a + b == b;
    } else {
      assert (a + b)[1..] == a[1..] + b;
      TrainedConcat(a[1..], b);
    }
  }

  lemma {:induction false} NoneTrained(a: seq<TokenRecord>)
    requires forall i :: 0 <= i < |a| ==> !Trains(a[i])
    ensures TrainedOnly(a) == []
  {
    if a != [] { NoneTrained(a[1..]); }
  }

  /** The trained tokens of one micro batch, as a bag. */
  function Trained(s: MicroBatch): multiset<TokenRecord>
    requires Aligned(s)
  {
    multiset(TrainedOnly(Records(s)))
  }
}
