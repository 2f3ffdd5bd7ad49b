/** pass@k and pass^k over a group of rewards, reported at powers of two. */
module PassMetrics {
  /** `math.comb`. */
  function Comb(n: nat, k: nat): nat {
    if k == 0 then 1 else if n == 0 then 0 else Comb(n - 1, k - 1) + Comb(n - 1, k)
  }

  function Correct(rewards: seq<real>): (c: nat)
    ensures c <= |rewards|
  {
    if rewards == [] then 0 else Correct(rewards[..|rewards| - 1]) + (if rewards[|rewards| - 1] == 1.0 then 1 else 0)
  }

  lemma {:induction false} CombSpecial(n: nat)
    ensures Comb(n, 1) == n && Comb(n, n) == 1 && forall k :: k > n ==> Comb(n, k) == 0
  {
    if n > 0 {
      CombSpecial(n - 1);
      forall k | k > n ensures Comb(n, k) == 0 {
        assert Comb(n - 1, k - 1) == 0 && Comb(n - 1, k) == 0;
      }
    }
  }

  lemma {:induction false} CombPositive(n: nat, k: nat)
    requires k <= n
    ensures Comb(n, k) > 0
  {
    if k == 0 {
    } else if k == n {
      CombSpecial(n);
    } else {
      CombPositive(n - 1, k);
    }
  }

  /** The absorption identity. */
  lemma {:induction false} CombNext(n: nat, k: nat)
    requires k <= n
    ensures (k + 1) * Comb(n, k + 1) == (n - k) * Comb(n, k)
    decreases n
  {
    if k == n {
      CombSpecial(n);
    } else if k == 0 {
      CombSpecial(n);
    } else {
      CombNext(n - 1, k - 1);
      CombNext(n - 1, k);
      var a, b, c := Comb(n - 1, k - 1), Comb(n - 1, k), Comb(n - 1, k + 1);
      assert Comb(n, k + 1) == b + c && Comb(n, k) == a + b;
      Absorb(n, k, a, b, c);
    }
  }

  lemma Absorb(n: int, k: int, a: int, b: int, c: int)
    requires k * b == (n - k) * a && (k + 1) * c == (n - 1 - k) * b
    ensures (k + 1) * (b + c) == (n - k) * (a + b)
  {
    Distribute(k + 1, b, c);
    Distribute(n - k, a, b);
    Distribute(b, k, 1);
    Distribute(b, n - 1 - k, 1);
  }

  lemma Distribute(x: int, y: int, z: int)
    ensures x * (y + z) == x * y + x * z
  {
  }

  function PassAt(n: nat, c: nat, k: nat): real
    requires c <= n && 1 <= k <= n && Comb(n, k) > 0
  {
    1.0 - Comb(n - c, k) as real / Comb(n, k) as real
  }

  function PassAll(n: nat, c: nat, k: nat): real
    requires c <= n && 1 <= k <= n && Comb(n, k) > 0
  {
    Comb(c, k) as real / Comb(n, k) as real
  }

  /** The ratio of choosing k from m to choosing k from n; pass^k is Ratio(c), pass@k is 1 - Ratio(n - c). */
  function Ratio(m: nat, n: nat, k: nat): real
    requires Comb(n, k) > 0
  {
    Comb(m, k) as real / Comb(n, k) as real
  }

  lemma TimesKeepsOrder(x: real, y: real, b: real)
    requires b > 0.0
    ensures x < y ==> x * b < y * b
  {
    if x < y { assert (y - x) * b > 0.0; }
  }

  lemma Divided(a: real, b: real, q: real)
    requires b > 0.0
    ensures a <= q * b ==> a / b <= q
    ensures a >= q * b ==> a / b >= q
    ensures (a / b) * b == a
  {
    var r := a / b;
    assert r * b == a;
    TimesKeepsOrder(q, r, b);
    TimesKeepsOrder(r, q, b);
  }

  /** One step in k multiplies the ratio by (m - k) / (n - k), at most 1. */
  lemma RatioStep(m: nat, n: nat, k: nat)
    requires m <= n && k < n
    ensures Comb(n, k) > 0 && Comb(n, k + 1) > 0
    ensures 0.0 <= Ratio(m, n, k + 1) <= Ratio(m, n, k)
  {
    CombPositive(n, k);
    CombPositive(n, k + 1);
    CombNext(n, k);
    var a, b, A, B := Comb(m, k), Comb(m, k + 1), Comb(n, k), Comb(n, k + 1);
    CrossStep(m, n, k);
    RatioOrder(b, B, a, A);
  }

  /** b * A <= a * B for the combinations at k and k + 1. */
  lemma CrossStep(m: nat, n: nat, k: nat)
    requires m <= n && k < n
    ensures Comb(m, k + 1) * Comb(n, k) <= Comb(m, k) * Comb(n, k + 1)
  {
    var a, b, A, B := Comb(m, k), Comb(m, k + 1), Comb(n, k), Comb(n, k + 1);
    if k > m {
      CombSpecial(m);
    } else {
      CombNext(m, k);
      CombNext(n, k);
      assert (k + 1) * b == (m - k) * a && (k + 1) * B == (n - k) * A;
      CrossScaled(k + 1, m - k, n - k, a, b, A, B);
    }
  }

  lemma CrossScaled(s: nat, p: nat, q: nat, a: nat, b: nat, A: nat, B: nat)
    requires s > 0 && p <= q && s * b == p * a && s * B == q * A
    ensures b * A <= a * B
  {
    assert s * (b * A) == (s * b) * A == (p * a) * A == p * (a * A);
    assert s * (a * B) == a * (s * B) == a * (q * A) == q * (a * A);
    TimesOrder(p, q, a * A);
    TimesStrict(s, a * B, b * A);
  }

  lemma TimesOrder(p: nat, q: nat, x: nat)
    requires p <= q
    ensures p * x <= q * x
  {
    assert q * x == p * x + (q - p) * x;
  }

  lemma TimesStrict(s: nat, x: nat, y: nat)
    requires s > 0
    ensures x < y ==> s * x < s * y
  {
    assert s * y == s * x + s * (y - x);
  }

  lemma RatioOrder(b: nat, B: nat, a: nat, A: nat)
    requires A > 0 && B > 0 && b * A <= a * B
    ensures 0.0 <= b as real / B as real <= a as real / A as real
  {
    var x, y := b as real / B as real, a as real / A as real;
    Divided(b as real, B as real, 0.0);
    assert x * B as real == b as real by { Divided(b as real, B as real, x); }
    assert y * A as real == a as real by { Divided(a as real, A as real, y); }
    var scale := A as real * B as real;
    assert scale > 0.0;
    assert x * scale == (x * B as real) * A as real == b as real * A as real == (b * A) as real;
    assert y * scale == (y * A as real) * B as real == a as real * B as real == (a * B) as real;
    TimesKeepsOrder(y, x, scale);
  }

  lemma {:induction false} RatioFalls(m: nat, n: nat, j: nat, k: nat)
    requires m <= n && j <= k <= n
    ensures Comb(n, j) > 0 && Comb(n, k) > 0
    ensures 0.0 <= Ratio(m, n, k) <= Ratio(m, n, j)
    decreases k - j
  {
    CombPositive(n, j);
    CombPositive(n, k);
    if j < k {
      RatioFalls(m, n, j, k - 1);
      RatioStep(m, n, k - 1);
    } else {
      Divided(Comb(m, k) as real, Comb(n, k) as real, 0.0);
    }
  }

  lemma RatioAtOne(m: nat, n: nat)
    requires m <= n && n > 0
    ensures Comb(n, 1) > 0 && Ratio(m, n, 1) == m as real / n as real
  {
    CombSpecial(n);
    CombSpecial(m);
  }

  /** pass^k <= c/n <= pass@k, both in [0, 1], with equality at k = 1. */
  lemma PassBounds(n: nat, c: nat, k: nat)
    requires c <= n && 1 <= k <= n
    ensures Comb(n, k) > 0
    ensures 0.0 <= PassAll(n, c, k) <= c as real / n as real <= PassAt(n, c, k) <= 1.0
    ensures k == 1 ==> PassAll(n, c, k) == c as real / n as real == PassAt(n, c, k)
  {
    RatioFalls(c, n, 1, k);
    RatioFalls(n - c, n, 1, k);
    RatioAtOne(c, n);
    RatioAtOne(n - c, n);
    Complement(n, c);
  }

  lemma SharesSum(x: real, y: real, z: real, a: real, b: real)
    requires z > 0.0 && x * z == a && y * z == b && a + b == z
    ensures x + y == 1.0
  {
    DistributeReal(x, y, z);
    var s := x + y;
    var t := s * z;
    assert t == a + b;
    QuotientIsOne(s, z, t);
  }

  lemma DistributeReal(x: real, y: real, z: real)
    ensures (x + y) * z == x * z + y * z
  {
  }

  lemma QuotientIsOne(s: real, z: real, t: real)
    requires z > 0.0 && s * z == t && t == z
    ensures s == 1.0
  {
    TimesKeepsOrder(s, 1.0, z);
    TimesKeepsOrder(1.0, s, z);
  }

  lemma Complement(n: nat, c: nat)
    requires c <= n && n > 0
    ensures 1.0 - (n - c) as real / n as real == c as real / n as real
  {
    var z, a, b := n as real, (n - c) as real, c as real;
    Divided(a, z, 0.0);
    Divided(b, z, 0.0);
    var x, y := a / z, b / z;
    assert x * z == a;
    assert y * z == b;
    assert a + b == z;
    SharesSum(x, y, z, a, b);
  }

  /** pass@k never falls and pass^k never rises with k. */
  lemma PassMonotone(n: nat, c: nat, j: nat, k: nat)
    requires c <= n && 1 <= j <= k <= n
    ensures Comb(n, j) > 0 && Comb(n, k) > 0
    ensures PassAt(n, c, j) <= PassAt(n, c, k) && PassAll(n, c, k) <= PassAll(n, c, j)
  {
    RatioFalls(c, n, j, k);
    RatioFalls(n - c, n, j, k);
  }

  // ---------------------------------------------------------------- what the numbers count

  /** The attempts with reward 1.0. */
  function CorrectOnes(rewards: seq<real>): set<nat> {
    set i | 0 <= i < |rewards| && rewards[i] == 1.0
  }

  function Attempts(n: nat): (r: set<nat>)
    ensures |r| == n && forall i: nat :: i in r <==> i < n
  {
    if n == 0 then {} else Attempts(n - 1) + {n - 1}
  }

  lemma {:induction false} CorrectCounts(rewards: seq<real>)
    ensures Correct(rewards) == |CorrectOnes(rewards)|
  {
    if rewards != [] {
      var n := |rewards| - 1;
      CorrectCounts(rewards[..n]);
      var before := CorrectOnes(rewards[..n]);
      assert CorrectOnes(rewards) == if rewards[n] == 1.0 then before + {n} else before;
    }
  }

  /** The ways to draw `k` of the attempts in `s`. */
  ghost function Draws(s: set<nat>, k: nat): set<set<nat>> {
    set t | t <= s && |t| == k
  }

  ghost function With(draws: set<set<nat>>, x: nat): set<set<nat>> {
    set t | t in draws :: t + {x}
  }

  lemma OnceAdded(t: set<nat>, u: set<nat>, x: nat)
    requires x !in t && x !in u
    ensures t + {x} == u + {x} ==> t == u
  {
    assert t == (t + {x}) - {x} && u == (u + {x}) - {x};
  }

  lemma {:induction false} WithSize(draws: set<set<nat>>, x: nat)
    requires forall t :: t in draws ==> x !in t
    ensures |With(draws, x)| == |draws|
    decreases |draws|
  {
    if draws == {} {
      assert With(draws, x) == {};
    } else {
      var t :| t in draws;
      WithSize(draws - {t}, x);
      forall u | u in draws - {t} ensures u + {x} != t + {x} { OnceAdded(u, t, x); }
      assert With(draws, x) == With(draws - {t}, x) + {t + {x}};
    }
  }

  lemma DrawsOfNone(s: set<nat>)
    ensures Draws(s, 0) == {{}}
  {
    assert {} in Draws(s, 0);
    forall t | t in Draws(s, 0) ensures t == {} {}
  }

  lemma DrawsFromNothing(k: nat)
    requires k > 0
    ensures Draws({}, k) == {}
  {
    forall t ensures t !in Draws({}, k) {}
  }

  /** A draw of `k` leaves out `x`, or is `x` with a draw of `k - 1` of the others. */
  lemma DrawsSplit(s: set<nat>, x: nat, k: nat)
    requires x in s && k > 0
    ensures Draws(s, k) == Draws(s - {x}, k) + With(Draws(s - {x}, k - 1), x)
    ensures Draws(s - {x}, k) !! With(Draws(s - {x}, k - 1), x)
    ensures forall t :: t in Draws(s - {x}, k - 1) ==> x !in t
  {
    var rest := Draws(s - {x}, k - 1);
    forall t | t in Draws(s, k) ensures t in Draws(s - {x}, k) + With(rest, x) {
      if x in t {
        assert t - {x} in rest;
        assert t == (t - {x}) + {x};
      }
    }
    forall t | t in With(rest, x) ensures t in Draws(s, k) && t !in Draws(s - {x}, k) {
      var u :| u in rest && t == u + {x};
      assert x !in u;
    }
    forall t | t in Draws(s - {x}, k) ensures t in Draws(s, k) {}
  }

  /** `math.comb` counts the draws. */
  lemma {:induction false} DrawsCounted(s: set<nat>, k: nat)
    ensures |Draws(s, k)| == Comb(|s|, k)
    decreases |s|
  {
    if k == 0 {
      DrawsOfNone(s);
    } else if s == {} {
      DrawsFromNothing(k);
    } else {
      var x :| x in s;
      DrawsCounted(s - {x}, k);
      DrawsCounted(s - {x}, k - 1);
      DrawsGrow(s, x, k);
      hide Draws;
      CombStep(|s|, k);
      hide Comb;
    }
  }

  lemma DrawsGrow(s: set<nat>, x: nat, k: nat)
    requires x in s && k > 0
    ensures |Draws(s, k)| == |Draws(s - {x}, k)| + |Draws(s - {x}, k - 1)|
  {
    DrawsSplit(s, x, k);
    hide Draws;
    WithSize(Draws(s - {x}, k - 1), x);
    hide With;
  }

  lemma CombStep(n: nat, k: nat)
    requires n > 0 && k > 0
    ensures Comb(n, k) == Comb(n - 1, k - 1) + Comb(n - 1, k)
  {
  }

  /** The draws that hold a correct attempt, and those that hold nothing else. */
  ghost function SomeCorrect(rewards: seq<real>, k: nat): set<set<nat>> {
    set t | t in Draws(Attempts(|rewards|), k) && exists i :: i in t && i < |rewards| && rewards[i] == 1.0
  }

  ghost function AllCorrect(rewards: seq<real>, k: nat): set<set<nat>> {
    set t | t in Draws(Attempts(|rewards|), k) && forall i :: i in t ==> i < |rewards| && rewards[i] == 1.0
  }

  lemma DrawKinds(rewards: seq<real>, k: nat)
    ensures AllCorrect(rewards, k) == Draws(CorrectOnes(rewards), k)
    ensures SomeCorrect(rewards, k) == Draws(Attempts(|rewards|), k) - Draws(Attempts(|rewards|) - CorrectOnes(rewards), k)
    ensures Draws(Attempts(|rewards|) - CorrectOnes(rewards), k) <= Draws(Attempts(|rewards|), k)
  {
    forall t ensures t in AllCorrect(rewards, k) <==> t in Draws(CorrectOnes(rewards), k) {
      if t in Draws(CorrectOnes(rewards), k) {
        forall i | i in t ensures i < |rewards| && rewards[i] == 1.0 { assert i in CorrectOnes(rewards); }
        assert t <= Attempts(|rewards|);
      }
    }
    forall t ensures t in SomeCorrect(rewards, k)
                     <==> t in Draws(Attempts(|rewards|), k) && t !in Draws(Attempts(|rewards|) - CorrectOnes(rewards), k) {
    }
  }

  /** `share` of the draws of `k` attempts are in `some`. */
  ghost predicate IsShare(share: real, some: set<set<nat>>, all: set<set<nat>>) {
    some <= all && share * |all| as real == |some| as real
  }

  /** pass@k is the share of draws with a correct attempt, pass^k that of draws with correct attempts only. */
  lemma PassShares(rewards: seq<real>, k: nat)
    requires 1 <= k <= |rewards|
    ensures Comb(|rewards|, k) > 0 && |Draws(Attempts(|rewards|), k)| > 0
    ensures IsShare(PassAt(|rewards|, Correct(rewards), k), SomeCorrect(rewards, k), Draws(Attempts(|rewards|), k))
    ensures IsShare(PassAll(|rewards|, Correct(rewards), k), AllCorrect(rewards, k), Draws(Attempts(|rewards|), k))
  {
    hide *;
    var n, c := |rewards|, Correct(rewards);
    CombPositive(n, k);
    KindsCounted(rewards, k);
    PassTimes(n, c, k);
    var all, some, right := Draws(Attempts(n), k), SomeCorrect(rewards, k), AllCorrect(rewards, k);
    ShareHolds(PassAt(n, c, k), some, all, Comb(n, k), Comb(n, k) - Comb(n - c, k));
    ShareHolds(PassAll(n, c, k), right, all, Comb(n, k), Comb(c, k));
  }

  lemma ShareHolds(share: real, some: set<set<nat>>, all: set<set<nat>>, n: nat, m: nat)
    requires some <= all && |all| == n && |some| == m && share * n as real == m as real
    ensures IsShare(share, some, all)
  {
  }

  lemma PassTimes(n: nat, c: nat, k: nat)
    requires c <= n && 1 <= k <= n && Comb(n, k) > 0
    ensures PassAt(n, c, k) * Comb(n, k) as real == (Comb(n, k) - Comb(n - c, k)) as real
    ensures PassAll(n, c, k) * Comb(n, k) as real == Comb(c, k) as real
  {
    hide Comb;
    ShareOf(Comb(n, k), Comb(c, k));
    RestOf(Comb(n, k), Comb(n - c, k));
  }

  lemma KindsCounted(rewards: seq<real>, k: nat)
    ensures var all := Draws(Attempts(|rewards|), k); var n, c := |rewards|, Correct(rewards);
            && |all| == Comb(n, k)
            && AllCorrect(rewards, k) <= all && |AllCorrect(rewards, k)| == Comb(c, k)
            && SomeCorrect(rewards, k) <= all && |SomeCorrect(rewards, k)| == Comb(n, k) - Comb(n - c, k)
  {
    var all, right, wrong := Attempts(|rewards|), CorrectOnes(rewards), Attempts(|rewards|) - CorrectOnes(rewards);
    CorrectCounts(rewards);
    WrongCounted(rewards);
    DrawKinds(rewards, k);
    assert AllCorrect(rewards, k) <= Draws(all, k);
    hide Draws;
    hide SomeCorrect;
    hide AllCorrect;
    hide Comb;
    hide CorrectOnes;
    DrawsCounted(all, k);
    DrawsCounted(right, k);
    DrawsCounted(wrong, k);
    Difference(Draws(all, k), Draws(wrong, k));
  }

  lemma WrongCounted(rewards: seq<real>)
    ensures |Attempts(|rewards|) - CorrectOnes(rewards)| == |rewards| - |CorrectOnes(rewards)|
  {
    Difference(Attempts(|rewards|), CorrectOnes(rewards));
  }

  lemma Difference<T>(all: set<T>, some: set<T>)
    requires some <= all
    ensures |all - some| == |all| - |some|
  {
    assert (all - some) + some == all;
  }

  lemma ShareOf(n: nat, m: nat)
    requires n > 0
    ensures (m as real / n as real) * n as real == m as real
  {
    Divided(m as real, n as real, 0.0);
  }

  lemma RestOf(n: nat, m: nat)
    requires n > 0
    ensures (1.0 - m as real / n as real) * n as real == (n - m) as real
  {
    ShareOf(n, m);
    OneMinus(m as real / n as real, n as real, m as real);
  }

  lemma OneMinus(share: real, n: real, m: real)
    requires share * n == m
    ensures (1.0 - share) * n == n - m
  {
  }

  function Power(i: nat): (p: nat)
    ensures p >= 1
  {
    if i == 0 then 1 else 2 * Power(i - 1)
  }

  lemma {:induction false} PowerGrows(i: nat, j: nat)
    requires i < j
    ensures Power(i) < Power(j)
    decreases j
  {
    if i < j - 1 { PowerGrows(i, j - 1); }
  }

  /** One of the first `e` powers of two. */
  ghost predicate PowerBelow(k: nat, e: nat) {
    exists i: nat :: i < e && k == Power(i)
  }

  ghost predicate IsPower(k: nat) {
    exists i: nat :: k == Power(i)
  }

  datatype Metric = Metric(passAt: real, passAll: real)

  method CountCorrect(rewards: seq<real>) returns (correct: nat)
    ensures correct == Correct(rewards)
  {
    correct := 0;
    for i := 0 to |rewards|
      invariant correct == Correct(rewards[..i])
    {
      assert rewards[..i + 1][..i] == rewards[..i];
      if rewards[i] == 1.0 { correct := correct + 1; }
    }
    assert rewards[..|rewards|] == rewards;
  }

  /** What each reported number is a share of. */
  ghost predicate SharesReported(rewards: seq<real>, metrics: map<nat, Metric>) {
    forall k :: k in metrics ==>
      && 1 <= k <= |rewards|
      && IsShare(metrics[k].passAt, SomeCorrect(rewards, k), Draws(Attempts(|rewards|), k))
      && IsShare(metrics[k].passAll, AllCorrect(rewards, k), Draws(Attempts(|rewards|), k))
  }

  ghost predicate Reported(n: nat, c: nat, metrics: map<nat, Metric>)
    requires c <= n
  {
    forall k :: k in metrics ==> 1 <= k <= n && Comb(n, k) > 0 && metrics[k] == Metric(PassAt(n, c, k), PassAll(n, c, k))
  }

  lemma NextPower(e: nat)
    ensures Power(e + 1) == Power(e) * 2
    ensures forall j: nat :: PowerBelow(j, e + 1) <==> PowerBelow(j, e) || j == Power(e)
  {
  }

  /** The doubling loop reports exactly the powers of two up to n. */
  method ComputePassMetrics(rewards: seq<real>) returns (metrics: map<nat, Metric>)
    ensures Reported(|rewards|, Correct(rewards), metrics) && SharesReported(rewards, metrics)
    ensures forall k: nat :: k in metrics <==> k <= |rewards| && IsPower(k)
  {
    hide Comb;
    hide PassAt;
    hide PassAll;
    hide PowerBelow;
    hide IsPower;
    var n := |rewards|;
    var correct := CountCorrect(rewards);
    metrics := map[];
    var k := 1;
    ghost var e := 0;
    assert Power(0) == 1;
    NoPowers();
    while k <= n
      invariant k == Power(e)
      invariant forall j: nat :: j in metrics <==> j <= n && PowerBelow(j, e)
      invariant Reported(n, correct, metrics)
      decreases n - k
    {
      hide Power;
      CombPositive(n, k);
      metrics := metrics[k := Metric(PassAt(n, correct, k), PassAll(n, correct, k))];
      NextPower(e);
      k := k * 2;
      e := e + 1;
    }
    forall j: nat | j <= n ensures PowerBelow(j, e) <==> IsPower(j) {
      PowersUpTo(j, n, e);
    }
    ReportedShares(rewards, metrics);
  }

  lemma ReportedShares(rewards: seq<real>, metrics: map<nat, Metric>)
    requires Reported(|rewards|, Correct(rewards), metrics)
    ensures SharesReported(rewards, metrics)
  {
    hide Comb;
    hide IsShare;
    hide PassAt;
    hide PassAll;
    hide Draws;
    hide SomeCorrect;
    hide AllCorrect;
    forall k | k in metrics
      ensures 1 <= k <= |rewards|
      ensures IsShare(metrics[k].passAt, SomeCorrect(rewards, k), Draws(Attempts(|rewards|), k))
      ensures IsShare(metrics[k].passAll, AllCorrect(rewards, k), Draws(Attempts(|rewards|), k))
    {
      PassShares(rewards, k);
    }
  }

  lemma NoPowers()
    ensures forall j: nat :: !PowerBelow(j, 0)
  {
  }

  lemma PowersUpTo(j: nat, n: nat, e: nat)
    requires j <= n < Power(e)
    ensures PowerBelow(j, e) <==> IsPower(j)
  {
    if i: nat :| j == Power(i) {
      if i > e { PowerGrows(e, i); }
    }
  }
}
