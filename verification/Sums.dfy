/** Sums over the values of a map and over a sequence. */
module Sums {

  ghost function Pick<K(!new), V>(m: map<K, V>): (k: K)
    requires |m| > 0
    ensures k in m
  {
    assert m.Keys != {};
    var k :| k in m.Keys;
    k
  }

  ghost function Sum<K(!new), V>(m: map<K, V>, f: V -> int): int
    decreases |m|
  {
    if |m| == 0 then 0 else f(m[Pick(m)]) + Sum(m - {Pick(m)}, f)
  }

  lemma {:induction false} SumTake<K(!new), V>(m: map<K, V>, k: K, f: V -> int)
    requires k in m
    ensures Sum(m, f) == f(m[k]) + Sum(m - {k}, f)
    decreases |m|
  {
    var k0 := Pick(m);
    if k0 != k {
      SumTake(m - {k0}, k, f);
      assert m - {k0} - {k} == m - {k} - {k0};
      SumTake(m - {k}, k0, f);
    }
  }

  lemma SumEmpty<K(!new), V>(m: map<K, V>, f: V -> int)
    requires m == map[]
    ensures Sum(m, f) == 0
  {
  }

  lemma SumUpdate<K(!new), V>(m: map<K, V>, k: K, v: V, f: V -> int)
    ensures Sum(m[k := v], f) == Sum(m, f) + f(v) - (if k in m then f(m[k]) else 0)
  {
    SumTake(m[k := v], k, f);
    assert m[k := v] - {k} == m - {k};
    if k in m { SumTake(m, k, f); } else { assert m - {k} == m; }
  }

  /** Equal summands give equal sums. */
  lemma {:induction false} SumSame<K(!new), V>(m: map<K, V>, m': map<K, V>, f: V -> int, g: V -> int)
    requires m.Keys == m'.Keys
    requires forall k :: k in m ==> f(m[k]) == g(m'[k])
    ensures Sum(m, f) == Sum(m', g)
    decreases |m|
  {
    assert |m| == |m.Keys| == |m'.Keys| == |m'|;
    if |m| > 0 {
      var k :| k in m;
      SumTake(m, k, f);
      SumTake(m', k, g);
      SumSame(m - {k}, m' - {k}, f, g);
    }
  }

  lemma {:induction false} SumNonNegative<K(!new), V>(m: map<K, V>, f: V -> int)
    requires forall k :: k in m ==> f(m[k]) >= 0
    ensures Sum(m, f) >= 0
    decreases |m|
  {
    if |m| > 0 {
      var k :| k in m;
      SumTake(m, k, f);
      SumNonNegative(m - {k}, f);
    }
  }

  /** A summand is at most the sum when no summand is negative. */
  lemma SumBoundsPart<K(!new), V>(m: map<K, V>, k: K, f: V -> int)
    requires k in m
    requires forall j :: j in m ==> f(m[j]) >= 0
    ensures f(m[k]) <= Sum(m, f)
  {
    SumTake(m, k, f);
    SumNonNegative(m - {k}, f);
  }

  /** The sum of two summands is the sum of the sums. */
  lemma {:induction false} SumAdds<K(!new), V>(m: map<K, V>, f: V -> int, g: V -> int, h: V -> int)
    requires forall k :: k in m ==> h(m[k]) == f(m[k]) + g(m[k])
    ensures Sum(m, h) == Sum(m, f) + Sum(m, g)
    decreases |m|
  {
    if |m| > 0 {
      var k :| k in m;
      SumTake(m, k, f);
      SumTake(m, k, g);
      SumTake(m, k, h);
      SumAdds(m - {k}, f, g, h);
    }
  }

  /** Entries that add nothing can be left out. */
  lemma {:induction false} SumGrows<K(!new), V>(m: map<K, V>, m': map<K, V>, f: V -> int)
    requires m.Keys <= m'.Keys
    requires forall k :: k in m ==> f(m'[k]) == f(m[k])
    requires forall k :: k in m' && k !in m ==> f(m'[k]) == 0
    ensures Sum(m', f) == Sum(m, f)
    decreases |m'|
  {
    if k :| k in m' && k !in m {
      SumTake(m', k, f);
      SumGrows(m, m' - {k}, f);
    } else {
      assert m.Keys == m'.Keys;
      SumSame(m, m', f, f);
    }
  }

  lemma {:induction false} SumZero<K(!new), V>(m: map<K, V>, f: V -> int)
    requires forall k :: k in m ==> f(m[k]) == 0
    ensures Sum(m, f) == 0
    decreases |m|
  {
    if |m| > 0 {
      var k :| k in m;
      SumTake(m, k, f);
      SumZero(m - {k}, f);
    }
  }

  function SeqSum<T>(s: seq<T>, f: T -> int): int {
    if s == [] then 0 else f(s[0]) + SeqSum(s[1..], f)
  }

  lemma {:induction false} SeqSumAppend<T>(s: seq<T>, t: seq<T>, f: T -> int)
    ensures SeqSum(s + t, f) == SeqSum(s, f) + SeqSum(t, f)
  {
    if s == [] {
      assert s + t == t;
    } else {
      assert (s + t)[1..] == s[1..] + t;
      SeqSumAppend(s[1..], t, f);
    }
  }

  lemma {:induction false} SeqSumUpdate<T>(s: seq<T>, i: nat, v: T, f: T -> int)
    requires i < |s|
    ensures SeqSum(s[i := v], f) == SeqSum(s, f) + f(v) - f(s[i])
  {
    if i > 0 {
      assert s[i := v][1..] == s[1..][i - 1 := v];
      SeqSumUpdate(s[1..], i - 1, v, f);
    }
  }

  lemma {:induction false} SeqSumSame<T>(s: seq<T>, t: seq<T>, f: T -> int, g: T -> int)
    requires |s| == |t|
    requires forall i :: 0 <= i < |s| ==> f(s[i]) == g(t[i])
    ensures SeqSum(s, f) == SeqSum(t, g)
  {
    if s != [] {
      SeqSumSame(s[1..], t[1..], f, g);
    }
  }
}
