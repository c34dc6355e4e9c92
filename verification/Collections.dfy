/** Small facts about sequences and sums that the proofs share. */
module Collections {

  ghost predicate NoDup<T>(s: seq<T>) {
    forall i, j :: 0 <= i < j < |s| ==> s[i] != s[j]
  }

  /** `s` without the first occurrence of `x`. */
  function Without<T(==)>(s: seq<T>, x: T): (r: seq<T>)
    ensures x in s ==> |r| == |s| - 1
    ensures x !in s ==> r == s
  {
    if s == [] then []
    else if s[0] == x then s[1..]
    else [s[0]] + Without(s[1..], x)
  }

  lemma {:induction false} WithoutAt<T>(s: seq<T>, i: nat)
    requires i < |s| && NoDup(s)
    ensures Without(s, s[i]) == s[..i] + s[i + 1..]
  {
    if i > 0 {
      assert s[0] != s[i] && s[1..][i - 1] == s[i];
      WithoutAt(s[1..], i - 1);
      CutTail(s, i);
    }
  }

  lemma CutTail<T>(s: seq<T>, i: nat)
    requires 0 < i < |s|
    ensures s[..i] + s[i + 1..] == [s[0]] + (s[1..][..i - 1] + s[1..][i..])
  {
  }

  lemma {:induction false} WithoutProps<T(!new)>(s: seq<T>, x: T)
    requires NoDup(s)
    ensures NoDup(Without(s, x))
    ensures forall y :: y in Without(s, x) <==> y in s && y != x
  {
    if x in s {
      var i :| 0 <= i < |s| && s[i] == x;
      WithoutAt(s, i);
      forall y
        ensures y in Without(s, x) <==> y in s && y != x
      {
        if y in s && y != x {
          var j :| 0 <= j < |s| && s[j] == y;
          assert Without(s, x)[if j < i then j else j - 1] == y;
        }
      }
    }
  }

  lemma MapsEqual(m: map<int, int>, n: map<int, int>)
    requires m.Keys == n.Keys && forall k :: k in m ==> k in n && m[k] == n[k]
    ensures m == n
  {
    forall k
      ensures k in m <==> k in n
    {
      assert k in m.Keys <==> k in n.Keys;
    }
    forall k | k in m
      ensures m[k] == n[k]
    {
    }
    assert m == n;
  }

  /** The sum of the values of a finite map. */
  ghost function SumMap(m: map<int, int>): int {
    if exists k :: k in m then
      var k :| k in m;
      m[k] + SumMap(m - {k})
    else 0
  }

  lemma {:induction false} SumMapRemove(m: map<int, int>, k: int)
    requires k in m
    ensures SumMap(m) == m[k] + SumMap(m - {k})
    decreases |m|
  {
    var j :| j in m && SumMap(m) == m[j] + SumMap(m - {j});
    if j != k {
      SumMapRemove(m - {j}, k);
      SumMapRemove(m - {k}, j);
      assert m - {j} - {k} == m - {k} - {j};
    }
  }

  lemma SumMapUpdate(m: map<int, int>, k: int, v: int)
    ensures SumMap(m[k := v]) == SumMap(m) + v - (if k in m then m[k] else 0)
  {
    SumMapRemove(m[k := v], k);
    if k in m {
      SumMapRemove(m, k);
      assert m[k := v] - {k} == m - {k};
    } else {
      assert m[k := v] - {k} == m;
    }
  }

  /** Each element of `xs` is related to the next. */
  ghost predicate Chained<T(!new)>(r: (T, T) -> bool, xs: seq<T>) {
    xs != [] && forall i :: 0 <= i < |xs| - 1 ==> r(xs[i], xs[i + 1])
  }

  lemma {:induction false} ChainedFrom<T(!new)>(r: (T, T) -> bool, x: T, xs: seq<T>)
    requires Chained(r, xs) && r(x, xs[0])
    ensures Chained(r, [x] + xs)
  {
    var ys := [x] + xs;
    forall i | 0 <= i < |ys| - 1
      ensures r(ys[i], ys[i + 1])
    {
      if i > 0 { assert r(xs[i - 1], xs[i - 1 + 1]); }
    }
  }
}
