/**
 * A Python dict as the list of its items in insertion order, with the two operations the
 * aggregations use: `d.get(k, default)` and `d[k] = v`, and sums over the values.
 */
module AssocList {

  /** Every key occurs at most once, as in a dict. */
  ghost predicate DistinctKeys<K, V>(l: seq<(K, V)>) {
    forall i, j :: 0 <= i < j < |l| ==> l[i].0 != l[j].0
  }

  /** Where key `k` sits in the items, or -1 when it is absent (`k in d`). */
  function IndexOf<K(==), V>(l: seq<(K, V)>, k: K): (i: int)
    ensures -1 <= i < |l|
    ensures 0 <= i ==> l[i].0 == k && forall j :: 0 <= j < i ==> l[j].0 != k
    ensures i < 0 ==> forall j :: 0 <= j < |l| ==> l[j].0 != k
  {
    if l == [] then -1
    else if l[0].0 == k then 0
    else
      var r := IndexOf(l[1..], k);
      if r < 0 then -1 else r + 1
  }

  /** `d.get(k, default)`. */
  function Get<K(==), V>(l: seq<(K, V)>, k: K, default: V): V {
    var i := IndexOf(l, k);
    if i < 0 then default else l[i].1
  }

  /** `d[k] = v`: an existing key keeps its place, a new one goes at the end. */
  function Put<K(==), V>(l: seq<(K, V)>, k: K, v: V): (r: seq<(K, V)>)
    ensures |r| == if IndexOf(l, k) < 0 then |l| + 1 else |l|
  {
    var i := IndexOf(l, k);
    if i < 0 then l + [(k, v)] else l[i := (k, v)]
  }

  /** After `d[k] = v`, `d[k]` is `v` and every other key reads as before. */
  lemma PutGet<K, V>(l: seq<(K, V)>, k: K, v: V, k2: K, default: V)
    ensures Get(Put(l, k, v), k2, default) == if k2 == k then v else Get(l, k2, default)
  {
    var r := Put(l, k, v);
    var i := IndexOf(l, k);
    if k2 == k {
      if i < 0 {
        assert r[|l|] == (k, v);
        assert IndexOf(r, k) == |l|;
      } else {
        assert r[i] == (k, v);
        assert IndexOf(r, k) == i;
      }
    } else {
      var j := IndexOf(l, k2);
      if j < 0 {
        assert forall m :: 0 <= m < |r| ==> r[m].0 != k2;
      } else {
        assert r[j] == l[j];
        assert forall m :: 0 <= m < j ==> r[m].0 == l[m].0;
        assert IndexOf(r, k2) == j;
      }
    }
  }

  /** After `d[k] = v`, the keys are the old ones and `k`. */
  lemma PutKeys<K, V>(l: seq<(K, V)>, k: K, v: V, k2: K)
    ensures 0 <= IndexOf(Put(l, k, v), k2) <==> k2 == k || 0 <= IndexOf(l, k2)
  {
    var r := Put(l, k, v);
    var i := IndexOf(l, k);
    if k2 == k {
      if i < 0 { assert r[|l|].0 == k; } else { assert r[i].0 == k; }
    } else if 0 <= IndexOf(l, k2) {
      assert r[IndexOf(l, k2)].0 == k2;
    } else {
      assert forall m :: 0 <= m < |r| ==> r[m].0 != k2;
    }
  }

  /** After `d[k] = v`, every item is an old one or the new `(k, v)`. */
  lemma PutItems<K, V>(l: seq<(K, V)>, k: K, v: V)
    ensures forall i :: 0 <= i < |Put(l, k, v)| ==> Put(l, k, v)[i] == (k, v) || (i < |l| && Put(l, k, v)[i] == l[i])
  {
  }

  /** Assigning keeps the keys distinct. */
  lemma PutDistinct<K, V>(l: seq<(K, V)>, k: K, v: V)
    requires DistinctKeys(l)
    ensures DistinctKeys(Put(l, k, v))
  {
  }

  /** The sum of `f` over the values, in item order. */
  function SumOf<K, V>(l: seq<(K, V)>, f: V -> real): real {
    if l == [] then 0.0 else f(l[0].1) + SumOf(l[1..], f)
  }

  lemma {:induction false} SumOfAppend<K, V>(l: seq<(K, V)>, x: (K, V), f: V -> real)
    ensures SumOf(l + [x], f) == SumOf(l, f) + f(x.1)
    decreases |l|
  {
    if l != [] {
      assert (l + [x])[1..] == l[1..] + [x];
      SumOfAppend(l[1..], x, f);
    }
  }

  lemma {:induction false} SumOfUpdate<K, V>(l: seq<(K, V)>, i: nat, x: (K, V), f: V -> real)
    requires i < |l|
    ensures SumOf(l[i := x], f) == SumOf(l, f) - f(l[i].1) + f(x.1)
    decreases |l|
  {
    if i > 0 {
      assert l[i := x][1..] == l[1..][i - 1 := x];
      SumOfUpdate(l[1..], i - 1, x, f);
    }
  }

  /** `d[k] = v` changes the sum by the new value less the one it replaces. */
  lemma SumOfPut<K, V>(l: seq<(K, V)>, k: K, v: V, f: V -> real)
    ensures SumOf(Put(l, k, v), f) ==
      SumOf(l, f) + f(v) - (if IndexOf(l, k) < 0 then 0.0 else f(Get(l, k, v)))
  {
    var i := IndexOf(l, k);
    if i < 0 {
      SumOfAppend(l, (k, v), f);
    } else {
      SumOfUpdate(l, i, (k, v), f);
    }
  }

  /** The sum of a value that is the same for every item. */
  lemma {:induction false} SumOfConstant<K, V>(l: seq<(K, V)>, f: V -> real, c: real)
    requires forall i :: 0 <= i < |l| ==> f(l[i].1) == c
    ensures SumOf(l, f) == |l| as real * c
    decreases |l|
  {
    if l != [] {
      SumOfConstant(l[1..], f, c);
    }
  }

  /** A sum of non-negative values is non-negative. */
  lemma {:induction false} SumOfNonNegative<K, V>(l: seq<(K, V)>, f: V -> real)
    requires forall i :: 0 <= i < |l| ==> f(l[i].1) >= 0.0
    ensures SumOf(l, f) >= 0.0
    decreases |l|
  {
    if l != [] {
      SumOfNonNegative(l[1..], f);
    }
  }
}
