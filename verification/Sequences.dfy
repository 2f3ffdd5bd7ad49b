/** Sums, bags and flattening of sequences, shared by the packer and the balancer. */
module Sequences {

  function Max(x: int, y: int): (m: int)
    ensures m >= x && m >= y && (m == x || m == y)
  {
    if x > y then x else y
  }

  function Min(x: int, y: int): (m: int)
    ensures m <= x && m <= y && (m == x || m == y)
  {
    if x < y then x else y
  }

  function Sum(s: seq<int>): int {
    if s == [] then 0 else s[0] + Sum(s[1..])
  }

  lemma {:induction false} SumUpdate(s: seq<int>, i: nat, x: int)
    requires i < |s|
    ensures Sum(s[i := x]) == Sum(s) - s[i] + x
  {
    if i == 0 {
      assert s[i := x][1..] == s[1..];
    } else {
      assert s[i := x][1..] == s[1..][i - 1 := x];
      SumUpdate(s[1..], i - 1, x);
    }
  }

  lemma {:induction false} SumAtLeast(s: seq<int>, bound: int)
    requires forall i :: 0 <= i < |s| ==> s[i] >= bound
    ensures Sum(s) >= |s| * bound
  {
    if s != [] {
      SumAtLeast(s[1..], bound);
      assert |s| * bound == |s[1..]| * bound + bound;
    }
  }

  function Flatten<T>(ss: seq<seq<T>>): seq<T> {
    if ss == [] then [] else ss[0] + Flatten(ss[1..])
  }

  /** The bag of all elements of all sequences. */
  function Bag<T>(ss: seq<seq<T>>): multiset<T> {
    if ss == [] then multiset{} else multiset(ss[0]) + Bag(ss[1..])
  }

  lemma {:induction false} BagConcat<T>(ss: seq<seq<T>>, tt: seq<seq<T>>)
    ensures Bag(ss + tt) == Bag(ss) + Bag(tt)
  {
    if ss == [] {
      assert ss + tt == tt;
    } else {
      assert (ss + tt)[1..] == ss[1..] + tt;
      BagConcat(ss[1..], tt);
    }
  }

  lemma {:induction false} BagUpdate<T>(ss: seq<seq<T>>, i: nat, s: seq<T>)
    requires i < |ss|
    ensures Bag(ss[i := s]) + multiset(ss[i]) == Bag(ss) + multiset(s)
  {
    if i == 0 {
      assert ss[i := s][1..] == ss[1..];
    } else {
      var rest := ss[1..];
      assert ss[i := s][1..] == rest[i - 1 := s];
      BagUpdate(rest, i - 1, s);
      assert rest[i - 1] == ss[i];
      assert Bag(ss[i := s]) + multiset(ss[i]) == multiset(ss[0]) + (Bag(rest[i - 1 := s]) + multiset(rest[i - 1]));
    }
  }

  lemma {:induction false} BagMember<T>(ss: seq<seq<T>>, i: nat)
    requires i < |ss|
    ensures multiset(ss[i]) <= Bag(ss)
  {
    if i > 0 { BagMember(ss[1..], i - 1); }
  }

  lemma {:induction false} BagTwoMembers<T>(ss: seq<seq<T>>, i: nat, j: nat)
    requires i < j < |ss|
    ensures multiset(ss[i]) + multiset(ss[j]) <= Bag(ss)
  {
    if i == 0 {
      BagMember(ss[1..], j - 1);
    } else {
      BagTwoMembers(ss[1..], i - 1, j - 1);
    }
  }

  lemma {:induction false} BagHasMember<T>(ss: seq<seq<T>>, x: T)
    ensures x in Bag(ss) <==> exists i :: 0 <= i < |ss| && x in ss[i]
  {
    if ss != [] {
      BagHasMember(ss[1..], x);
      if x in Bag(ss) && x !in ss[0] {
        var i :| 0 <= i < |ss[1..]| && x in ss[1..][i];
        assert x in ss[i + 1];
      }
      if i :| 0 <= i < |ss| && x in ss[i] {
        if i > 0 { assert x in ss[1..][i - 1]; }
      }
    }
  }

  function Range(n: nat): (r: seq<nat>)
    ensures |r| == n && forall i :: 0 <= i < n ==> r[i] == i
  {
    seq(n, i => i)
  }

  lemma RangeStep(n: nat)
    requires n > 0
    ensures multiset(Range(n)) == multiset{n - 1} + multiset(Range(n - 1))
  {
    assert Range(n) == Range(n - 1) + [n - 1];
  }

  lemma MulMonotone(k: nat, a: int, b: int)
    requires a <= b
    ensures k * a <= k * b
  {}

  lemma DivisionUnique(x: int, m: nat, q: int, r: nat)
    requires m > 0 && x == q * m + r && r < m
    ensures x / m == q && x % m == r
  {
    var d := q - x / m;
    assert d * m == q * m - (x / m) * m;
    if d >= 1 {
      MulMonotone(m, 1, d);
    } else if d <= -1 {
      MulMonotone(m, d, -1);
    }
  }

  lemma MulSucc(m: int, k: int)
    ensures (m + 1) * k == m * k + k
  {}

  lemma {:induction false} RangeCount(n: nat, i: nat)
    ensures multiset(Range(n))[i] == if i < n then 1 else 0
  {
    if n > 0 {
      assert Range(n) == Range(n - 1) + [n - 1];
      RangeCount(n - 1, i);
    }
  }
}
