/** Walk over the branches of a trace that trains every shared sampled node once. */
module TrainableBranches {
  import opened Wrappers

  type NodeId = nat

  datatype Node = Node(sampled: bool, mask: seq<bool>)

  /** Branches are root-to-leaf paths of node identities. */
  datatype Trace = Trace(nodes: map<NodeId, Node>, branches: seq<seq<NodeId>>)

  predicate Closed(t: Trace) {
    forall b, i :: 0 <= b < |t.branches| && 0 <= i < |t.branches[b]| ==> t.branches[b][i] in t.nodes
  }

  predicate Listed(t: Trace, branch: seq<NodeId>) {
    forall i :: 0 <= i < |branch| ==> branch[i] in t.nodes
  }

  function Count(mask: seq<bool>): nat {
    if mask == [] then 0 else Count(mask[..|mask| - 1]) + (if mask[|mask| - 1] then 1 else 0)
  }

  predicate AnyTrue(mask: seq<bool>) {
    exists i :: 0 <= i < |mask| && mask[i]
  }

  function Falses(n: nat): (r: seq<bool>)
    ensures |r| == n && forall i :: 0 <= i < n ==> !r[i]
  {
    seq(n, _ => false)
  }

  lemma {:induction false} CountConcat(a: seq<bool>, b: seq<bool>)
    ensures Count(a + b) == Count(a) + Count(b)
  {
    if b == [] {
      assert a + b == a;
    } else {
      assert (a + b)[..|a + b| - 1] == a + b[..|b| - 1];
      CountConcat(a, b[..|b| - 1]);
    }
  }

  lemma {:induction false} CountAny(mask: seq<bool>)
    ensures Count(mask) > 0 <==> AnyTrue(mask)
  {
    if mask != [] {
      var rest := mask[..|mask| - 1];
      CountAny(rest);
      if AnyTrue(mask) {
        var i :| 0 <= i < |mask| && mask[i];
        if i < |mask| - 1 { assert rest[i]; }
      }
      if AnyTrue(rest) {
        var i :| 0 <= i < |rest| && rest[i];
        assert mask[i];
      }
    }
  }

  /** A sampled node with something to train. */
  predicate Trainable(t: Trace, n: NodeId) {
    n in t.nodes && t.nodes[n].sampled && AnyTrue(t.nodes[n].mask)
  }

  function Trained(t: Trace, branch: seq<NodeId>): set<NodeId> {
    set n | n in branch && Trainable(t, n)
  }

  /** The nodes trained by the first `b` branches. */
  function TrainedBefore(t: Trace, b: nat): set<NodeId>
    requires b <= |t.branches|
  {
    if b == 0 then {} else TrainedBefore(t, b - 1) + Trained(t, t.branches[b - 1])
  }

  function Piece(t: Trace, n: NodeId, seen: set<NodeId>): (r: seq<bool>)
    requires n in t.nodes
    ensures |r| == |t.nodes[n].mask|
  {
    if Trainable(t, n) && n in seen then Falses(|t.nodes[n].mask|) else t.nodes[n].mask
  }

  function MaskOf(t: Trace, branch: seq<NodeId>, seen: set<NodeId>): seq<bool>
    requires Listed(t, branch)
  {
    if branch == [] then []
    else
      var rest, last := branch[..|branch| - 1], branch[|branch| - 1];
      MaskOf(t, rest, seen) + Piece(t, last, seen + Trained(t, rest))
  }

  function MaskAt(t: Trace, b: nat): seq<bool>
    requires Closed(t) && b < |t.branches|
  {
    MaskOf(t, t.branches[b], TrainedBefore(t, b))
  }

  datatype Sample = Sample(branch: nat, mask: seq<bool>)

  /** The samples of the first `b` branches. */
  function Yielded(t: Trace, b: nat): seq<Sample>
    requires Closed(t) && b <= |t.branches|
  {
    if b == 0 then []
    else Yielded(t, b - 1) + (if AnyTrue(MaskAt(t, b - 1)) then [Sample(b - 1, MaskAt(t, b - 1))] else [])
  }

  lemma WalkStep(t: Trace, branch: seq<NodeId>, seen: set<NodeId>, i: nat)
    requires Listed(t, branch) && i < |branch|
    ensures Listed(t, branch[..i]) && Listed(t, branch[..i + 1])
    ensures MaskOf(t, branch[..i + 1], seen) == MaskOf(t, branch[..i], seen) + Piece(t, branch[i], seen + Trained(t, branch[..i]))
    ensures Trained(t, branch[..i + 1]) == Trained(t, branch[..i]) + (if Trainable(t, branch[i]) then {branch[i]} else {})
  {
    hide Trainable;
    hide Piece;
    assert branch[..i + 1][..i] == branch[..i];
    assert branch[..i + 1] == branch[..i] + [branch[i]];
  }

  /** The walk over one branch. */
  method WalkBranch(t: Trace, branch: seq<NodeId>, seen: set<NodeId>) returns (mask: seq<bool>, trained: set<NodeId>)
    requires Listed(t, branch)
    ensures mask == MaskOf(t, branch, seen) && trained == seen + Trained(t, branch)
  {
    hide Trainable;
    hide Trained;
    hide MaskOf;
    mask, trained := [], seen;
    WalkStart(t, branch, seen);
    for i := 0 to |branch|
      invariant trained == seen + Trained(t, branch[..i])
      invariant mask == MaskOf(t, branch[..i], seen)
    {
      WalkStep(t, branch, seen, i);
      var n := branch[i];
      if Trainable(t, n) && n in trained {
        mask := mask + Falses(|t.nodes[n].mask|);
        assert trained == trained + {n};
      } else {
        if Trainable(t, n) { trained := trained + {n}; }
        mask := mask + t.nodes[n].mask;
      }
    }
    assert branch[..|branch|] == branch;
  }

  lemma WalkStart(t: Trace, branch: seq<NodeId>, seen: set<NodeId>)
    ensures MaskOf(t, branch[..0], seen) == [] && Trained(t, branch[..0]) == {}
  {
  }

  /** `iter_trainable_branches`, with the set of trained nodes it grows. */
  method IterTrainableBranches(t: Trace) returns (samples: seq<Sample>)
    requires Closed(t)
    ensures samples == Yielded(t, |t.branches|)
  {
    hide Trained;
    hide MaskOf;
    var trained: set<NodeId> := {};
    samples := [];
    for b := 0 to |t.branches|
      invariant trained == TrainedBefore(t, b)
      invariant samples == Yielded(t, b)
    {
      var mask, grown := WalkBranch(t, t.branches[b], trained);
      trained := grown;
      if AnyTrue(mask) { samples := samples + [Sample(b, mask)]; }
    }
  }

  // ---------------------------------------------------------------- lengths and segments

  /** Where node `i` of a branch starts in its mask. */
  function Offset(t: Trace, branch: seq<NodeId>, i: nat): nat
    requires Listed(t, branch) && i <= |branch|
  {
    if i == 0 then 0 else Offset(t, branch, i - 1) + |t.nodes[branch[i - 1]].mask|
  }

  lemma {:induction false} OffsetPrefix(t: Trace, branch: seq<NodeId>, i: nat, k: nat)
    requires Listed(t, branch) && i <= k <= |branch|
    ensures Offset(t, branch[..k], i) == Offset(t, branch, i)
  {
    if i > 0 { OffsetPrefix(t, branch, i - 1, k); }
  }

  /** A mask is as long as its branch's tokens. */
  lemma {:induction false} MaskLength(t: Trace, branch: seq<NodeId>, seen: set<NodeId>)
    requires Listed(t, branch)
    ensures |MaskOf(t, branch, seen)| == Offset(t, branch, |branch|)
  {
    if branch != [] {
      MaskLength(t, branch[..|branch| - 1], seen);
      OffsetPrefix(t, branch, |branch| - 1, |branch| - 1);
    }
  }

  /** The part of the mask that covers node `i`. */
  function SegmentOf(t: Trace, branch: seq<NodeId>, mask: seq<bool>, i: nat): seq<bool>
    requires Listed(t, branch) && i < |branch| && Offset(t, branch, i) + |t.nodes[branch[i]].mask| <= |mask|
  {
    mask[Offset(t, branch, i)..Offset(t, branch, i) + |t.nodes[branch[i]].mask|]
  }

  lemma {:induction false} Segment(t: Trace, branch: seq<NodeId>, seen: set<NodeId>, i: nat)
    requires Listed(t, branch) && i < |branch|
    ensures Offset(t, branch, i) + |t.nodes[branch[i]].mask| <= |MaskOf(t, branch, seen)|
    ensures SegmentOf(t, branch, MaskOf(t, branch, seen), i) == Piece(t, branch[i], seen + Trained(t, branch[..i]))
  {
    var rest, last := branch[..|branch| - 1], branch[|branch| - 1];
    var m, piece := MaskOf(t, rest, seen), Piece(t, last, seen + Trained(t, rest));
    assert MaskOf(t, branch, seen) == m + piece;
    hide Trainable;
    MaskLength(t, rest, seen);
    OffsetPrefix(t, branch, |branch| - 1, |branch| - 1);
    if i < |branch| - 1 {
      Segment(t, rest, seen, i);
      OffsetPrefix(t, branch, i, |branch| - 1);
      assert rest[..i] == branch[..i];
      hide Piece;
      hide MaskOf;
      hide Trained;
      hide Offset;
      SliceLeft(m, piece, Offset(t, branch, i), Offset(t, branch, i) + |t.nodes[branch[i]].mask|);
    } else {
      assert branch[..i] == rest;
      hide Piece;
      hide MaskOf;
      hide Trained;
      hide Offset;
      SliceRight(m, piece);
    }
  }

  lemma SliceRight(a: seq<bool>, b: seq<bool>)
    ensures (a + b)[|a|..|a| + |b|] == b
  {
  }

  lemma SliceLeft(a: seq<bool>, b: seq<bool>, from: nat, to: nat)
    requires from <= to <= |a|
    ensures (a + b)[from..to] == a[from..to]
  {
  }

  /** Branch `b` meets node `n` at `i` before any other place. */
  predicate FirstAt(t: Trace, n: NodeId, b: nat, i: nat) {
    && b < |t.branches| && i < |t.branches[b]| && t.branches[b][i] == n
    && (forall c :: 0 <= c < b ==> n !in t.branches[c])
    && n !in t.branches[b][..i]
  }

  lemma {:induction false} BeforeMembers(t: Trace, b: nat, n: NodeId)
    requires b <= |t.branches|
    ensures n in TrainedBefore(t, b) <==> Trainable(t, n) && exists c :: 0 <= c < b && n in t.branches[c]
  {
    if b > 0 { BeforeMembers(t, b - 1, n); }
  }

  /** A sampled node trains at its first occurrence and is masked out at every other one. */
  lemma TrainedOnce(t: Trace, b: nat, i: nat)
    requires Closed(t) && b < |t.branches| && i < |t.branches[b]| && Trainable(t, t.branches[b][i])
    ensures var n, off := t.branches[b][i], Offset(t, t.branches[b], i);
            && off + |t.nodes[n].mask| <= |MaskAt(t, b)|
            && SegmentOf(t, t.branches[b], MaskAt(t, b), i)
               == if FirstAt(t, n, b, i) then t.nodes[n].mask else Falses(|t.nodes[n].mask|)
  {
    var n := t.branches[b][i];
    Segment(t, t.branches[b], TrainedBefore(t, b), i);
    BeforeMembers(t, b, n);
  }

  /** The branch where a sampled node first occurs is yielded. */
  lemma FirstYielded(t: Trace, n: NodeId, b: nat, i: nat)
    requires Closed(t) && FirstAt(t, n, b, i) && Trainable(t, n)
    ensures Sample(b, MaskAt(t, b)) in Yielded(t, |t.branches|)
  {
    TrainedOnce(t, b, i);
    var off := Offset(t, t.branches[b], i);
    var k :| 0 <= k < |t.nodes[n].mask| && t.nodes[n].mask[k];
    assert MaskAt(t, b)[off..off + |t.nodes[n].mask|][k];
    assert MaskAt(t, b)[off + k];
    YieldedMember(t, b, |t.branches|);
  }

  lemma {:induction false} YieldedMember(t: Trace, b: nat, k: nat)
    requires Closed(t) && b < k <= |t.branches| && AnyTrue(MaskAt(t, b))
    ensures Sample(b, MaskAt(t, b)) in Yielded(t, k)
  {
    hide MaskAt;
    if b < k - 1 { YieldedMember(t, b, k - 1); }
  }

  /** Node by node: a sampled one with something to train is masked out where it is not first; every other piece is its own mask. */
  lemma MaskExactly(t: Trace, b: nat, i: nat)
    requires Closed(t) && b < |t.branches| && i < |t.branches[b]|
    ensures var n := t.branches[b][i]; var node := t.nodes[n];
            && Offset(t, t.branches[b], i) + |node.mask| <= |MaskAt(t, b)|
            && SegmentOf(t, t.branches[b], MaskAt(t, b), i)
               == if node.sampled && (exists k :: 0 <= k < |node.mask| && node.mask[k]) && !FirstAt(t, n, b, i)
                  then Falses(|node.mask|) else node.mask
  {
    Segment(t, t.branches[b], TrainedBefore(t, b), i);
    BeforeMembers(t, b, t.branches[b][i]);
  }

  /** Sample `k` is of a branch with a token left to train, and has its mask. */
  predicate FromBranch(t: Trace, y: Sample)
    requires Closed(t)
  {
    y.branch < |t.branches| && y.mask == MaskAt(t, y.branch) && exists k :: 0 <= k < |y.mask| && y.mask[k]
  }

  /** The samples are of exactly the branches with a token left to train, in branch order. */
  lemma {:induction false} YieldedExactly(t: Trace, n: nat)
    requires Closed(t) && n <= |t.branches|
    ensures forall k :: 0 <= k < |Yielded(t, n)| ==> FromBranch(t, Yielded(t, n)[k]) && Yielded(t, n)[k].branch < n
    ensures forall j, k :: 0 <= j < k < |Yielded(t, n)| ==> Yielded(t, n)[j].branch < Yielded(t, n)[k].branch
    ensures forall b :: 0 <= b < n && (exists k :: 0 <= k < |MaskAt(t, b)| && MaskAt(t, b)[k]) ==> Sample(b, MaskAt(t, b)) in Yielded(t, n)
  {
    hide MaskAt;
    if n > 0 {
      YieldedExactly(t, n - 1);
      forall b | 0 <= b < n && (exists k :: 0 <= k < |MaskAt(t, b)| && MaskAt(t, b)[k]) ensures Sample(b, MaskAt(t, b)) in Yielded(t, n) {
        YieldedMember(t, b, n);
      }
    }
  }

  // ---------------------------------------------------------------- the total

  ghost function SumOver(t: Trace, s: set<NodeId>): nat
    requires s <= t.nodes.Keys
  {
    if s == {} then 0
    else
      var n :| n in s;
      Count(t.nodes[n].mask) + SumOver(t, s - {n})
  }

  lemma {:induction false} SumInsert(t: Trace, s: set<NodeId>, n: NodeId)
    requires s <= t.nodes.Keys && n in s
    ensures SumOver(t, s) == Count(t.nodes[n].mask) + SumOver(t, s - {n})
    decreases |s|
  {
    var m :| m in s && SumOver(t, s) == Count(t.nodes[m].mask) + SumOver(t, s - {m});
    if m != n {
      SumInsert(t, s - {m}, n);
      SumInsert(t, s - {n}, m);
      assert s - {m} - {n} == s - {n} - {m};
    }
  }

  /** Mask tokens of the nodes that are not trained by identity, per occurrence. */
  function Untracked(t: Trace, branch: seq<NodeId>): nat
    requires Listed(t, branch)
  {
    if branch == [] then 0
    else
      var n := branch[|branch| - 1];
      Untracked(t, branch[..|branch| - 1]) + (if Trainable(t, n) then 0 else Count(t.nodes[n].mask))
  }

  function AllUntracked(t: Trace, b: nat): nat
    requires Closed(t) && b <= |t.branches|
  {
    if b == 0 then 0 else AllUntracked(t, b - 1) + Untracked(t, t.branches[b - 1])
  }

  lemma {:induction false} CountFalses(n: nat)
    ensures Count(Falses(n)) == 0
  {
    CountAny(Falses(n));
  }

  lemma {:induction false} BranchCount(t: Trace, branch: seq<NodeId>, seen: set<NodeId>)
    requires Listed(t, branch) && seen <= t.nodes.Keys
    ensures Trained(t, branch) <= t.nodes.Keys
    ensures Count(MaskOf(t, branch, seen)) + SumOver(t, seen) == SumOver(t, seen + Trained(t, branch)) + Untracked(t, branch)
  {
    hide Trainable;
    hide Count;
    hide Piece;
    hide SumOver;
    if branch == [] {
      assert Count([]) == 0 by { CountEmpty(); }
      assert seen + Trained(t, branch) == seen;
    } else {
      var rest, n := branch[..|branch| - 1], branch[|branch| - 1];
      BranchCount(t, rest, seen);
      assert branch == rest + [n];
      var before := seen + Trained(t, rest);
      CountConcat(MaskOf(t, rest, seen), Piece(t, n, before));
      PieceCount(t, n, before);
      assert seen + Trained(t, branch) == if Trainable(t, n) then before + {n} else before;
    }
  }

  lemma CountEmpty()
    ensures Count([]) == 0
  {
  }

  lemma PieceCount(t: Trace, n: NodeId, seen: set<NodeId>)
    requires n in t.nodes && seen <= t.nodes.Keys
    ensures Count(Piece(t, n, seen)) + SumOver(t, seen)
            == SumOver(t, if Trainable(t, n) then seen + {n} else seen) + (if Trainable(t, n) then 0 else Count(t.nodes[n].mask))
  {
    CountFalses(|t.nodes[n].mask|);
    if Trainable(t, n) {
      if n in seen {
        assert seen + {n} == seen;
      } else {
        SumInsert(t, seen + {n}, n);
        assert seen + {n} - {n} == seen;
      }
    }
  }

  function Total(samples: seq<Sample>): nat {
    if samples == [] then 0 else Total(samples[..|samples| - 1]) + Count(samples[|samples| - 1].mask)
  }

  /** Skipped branches have no trainable token, so the total counts every distinct sampled node once. */
  lemma {:induction false} TotalTrained(t: Trace, b: nat)
    requires Closed(t) && b <= |t.branches|
    ensures TrainedBefore(t, b) <= t.nodes.Keys
    ensures Total(Yielded(t, b)) == SumOver(t, TrainedBefore(t, b)) + AllUntracked(t, b)
  {
    if b > 0 {
      TotalTrained(t, b - 1);
      var branch := t.branches[b - 1];
      assert Listed(t, branch);
      BranchCount(t, branch, TrainedBefore(t, b - 1));
      CountAny(MaskAt(t, b - 1));
      var before, sample := Yielded(t, b - 1), Sample(b - 1, MaskAt(t, b - 1));
      assert (before + [sample])[..|before|] == before;
      assert Yielded(t, b) == before || Yielded(t, b) == before + [sample];
      assert Total(before + [sample]) == Total(before) + Count(sample.mask);
    }
  }

  /** With nothing masked in outside sampled nodes, exactly the distinct sampled nodes' tokens are trained. */
  lemma TotalDistinct(t: Trace)
    requires Closed(t) && forall n :: n in t.nodes && !t.nodes[n].sampled ==> !AnyTrue(t.nodes[n].mask)
    ensures TrainedBefore(t, |t.branches|) <= t.nodes.Keys
    ensures Total(Yielded(t, |t.branches|)) == SumOver(t, TrainedBefore(t, |t.branches|))
  {
    TotalTrained(t, |t.branches|);
    NothingUntracked(t, |t.branches|);
  }

  lemma {:induction false} NothingUntracked(t: Trace, b: nat)
    requires Closed(t) && b <= |t.branches| && forall n :: n in t.nodes && !t.nodes[n].sampled ==> !AnyTrue(t.nodes[n].mask)
    ensures AllUntracked(t, b) == 0
  {
    if b > 0 {
      NothingUntracked(t, b - 1);
      UntrackedNone(t, t.branches[b - 1]);
    }
  }

  lemma {:induction false} UntrackedNone(t: Trace, branch: seq<NodeId>)
    requires Listed(t, branch) && forall n :: n in t.nodes && !t.nodes[n].sampled ==> !AnyTrue(t.nodes[n].mask)
    ensures Untracked(t, branch) == 0
  {
    if branch != [] {
      UntrackedNone(t, branch[..|branch| - 1]);
      CountAny(t.nodes[branch[|branch| - 1]].mask);
    }
  }
}
