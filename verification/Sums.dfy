/** Sums of the values of a finite map and of a sequence, and the laws the storage maps need. */
module Sums {

  ghost function SumOver<K>(m: map<K, int>): int
    decreases |m|
  {
    if m == map[] then 0
    else
      var k :| k in m;
      SmallerWithout(m, k);
      m[k] + SumOver(m - {k})
  }

  lemma SumEmpty<K>(m: map<K, int>)
    requires m.Keys == {}
    ensures SumOver(m) == 0
  {
    assert m == map[];
  }

  lemma SmallerWithout<K>(m: map<K, int>, k: K)
    requires k in m
    ensures |m - {k}| < |m|
  {
    assert (m - {k}).Keys == m.Keys - {k};
  }

  /** Any key may be taken out first. */
  lemma {:induction false} SumSplit<K>(m: map<K, int>, k: K)
    requires k in m
    ensures SumOver(m) == m[k] + SumOver(m - {k})
    decreases |m|
  {
    var c :| c in m && SumOver(m) == m[c] + SumOver(m - {c});
    if c != k {
      SmallerWithout(m, c);
      SmallerWithout(m, k);
      SumSplit(m - {c}, k);
      SumSplit(m - {k}, c);
      assert m - {c} - {k} == m - {k} - {c};
    }
  }

  lemma SumPut<K>(m: map<K, int>, k: K, v: int)
    ensures SumOver(m[k := v]) == SumOver(m) + v - (if k in m then m[k] else 0)
  {
    SumSplit(m[k := v], k);
    assert m[k := v] - {k} == m - {k};
    if k in m {
      SumSplit(m, k);
    } else {
      assert m - {k} == m;
    }
  }

  /** Pointwise comparison; keys of `n` outside `m` must not count negatively. */
  lemma {:induction false} SumMono<K>(m: map<K, int>, n: map<K, int>)
    requires m.Keys <= n.Keys
    requires forall k :: k in m ==> m[k] <= n[k]
    requires forall k :: k in n && k !in m ==> 0 <= n[k]
    ensures SumOver(m) <= SumOver(n)
    decreases |n|
  {
    if n == map[] {
      assert m == map[];
    } else {
      var k :| k in n;
      SumSplit(n, k);
      SmallerWithout(n, k);
      if k in m {
        SumSplit(m, k);
        SumMono(m - {k}, n - {k});
      } else {
        assert m.Keys <= (n - {k}).Keys;
        SumMono(m, n - {k});
      }
    }
  }

  lemma {:induction false} SumAdd<K>(a: map<K, int>, b: map<K, int>, c: map<K, int>)
    requires a.Keys == b.Keys == c.Keys
    requires forall k :: k in c ==> c[k] == a[k] + b[k]
    ensures SumOver(c) == SumOver(a) + SumOver(b)
    decreases |c|
  {
    if c == map[] {
      assert a == map[] && b == map[];
    } else {
      var k :| k in c;
      SumSplit(a, k);
      SumSplit(b, k);
      SumSplit(c, k);
      SmallerWithout(c, k);
      SumAdd(a - {k}, b - {k}, c - {k});
    }
  }

  /** One nonnegative value never exceeds the whole sum. */
  lemma SumAtLeast<K>(m: map<K, int>, k: K)
    requires k in m
    requires forall j :: j in m ==> 0 <= m[j]
    ensures 0 <= m[k] <= SumOver(m)
  {
    SumSplit(m, k);
    SumMono(map[], m - {k});
  }

  /** Entries of `m` that count must be matched in `n`. */
  lemma {:induction false} SumMatched<K>(m: map<K, int>, n: map<K, int>)
    requires forall k :: k in m ==> m[k] <= (if k in n then n[k] else 0)
    requires forall k :: k in n ==> 0 <= n[k]
    ensures SumOver(m) <= SumOver(n)
    decreases |m|
  {
    if m == map[] {
      SumMono(map[], n);
    } else {
      var k :| k in m;
      SumSplit(m, k);
      SmallerWithout(m, k);
      if k in n {
        SumSplit(n, k);
      }
      assert k !in n ==> n - {k} == n;
      SumMatched(m - {k}, n - {k});
    }
  }

  // ---- Sequences ---------------------------------------------------------

  function SumOf(vs: seq<nat>): nat { if vs == [] then 0 else SumOf(vs[..|vs| - 1]) + vs[|vs| - 1] }

  lemma SumPush(vs: seq<nat>, v: nat)
    ensures SumOf(vs + [v]) == SumOf(vs) + v
  {
    assert (vs + [v])[..|vs|] == vs;
  }
}
