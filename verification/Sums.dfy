/** Sums of weights over sequences and maps, for the measures of the protocol. */
module Sums {

  function OverSeq<T>(xs: seq<T>, f: T -> nat): nat {
    if xs == [] then 0 else OverSeq(xs[..|xs| - 1], f) + f(xs[|xs| - 1])
  }

  ghost function OverMap<K, V>(m: map<K, V>, keys: set<K>, f: (K, V) -> nat): nat {
    if keys == {} then 0
    else
      var k :| k in keys;
      OverMap(m, keys - {k}, f) + if k in m then f(k, m[k]) else 0
  }

  lemma {:induction false} SeqPut<T>(xs: seq<T>, f: T -> nat, i: nat, x: T)
    requires i < |xs|
    ensures OverSeq(xs[i := x], f) + f(xs[i]) == OverSeq(xs, f) + f(x)
  {
    var last := |xs| - 1;
    if i == last {
      assert xs[i := x][..last] == xs[..last];
    } else {
      SeqPut(xs[..last], f, i, x);
      assert xs[i := x][..last] == xs[..last][i := x];
    }
  }

  lemma SeqAppend<T>(xs: seq<T>, f: T -> nat, x: T)
    ensures OverSeq(xs + [x], f) == OverSeq(xs, f) + f(x)
  {
    assert (xs + [x])[..|xs|] == xs;
  }

  lemma {:induction false} MapSame<K, V>(a: map<K, V>, b: map<K, V>, keys: set<K>, f: (K, V) -> nat)
    requires forall k :: k in keys ==> (k in a <==> k in b) && (k in a ==> a[k] == b[k])
    ensures OverMap(a, keys, f) == OverMap(b, keys, f)
  {
    if keys != {} {
      var k :| k in keys && OverMap(a, keys, f) == OverMap(a, keys - {k}, f) + if k in a then f(k, a[k]) else 0;
      MapSplit(b, keys, f, k);
      MapSame(a, b, keys - {k}, f);
    }
  }

  lemma {:induction false} MapSplit<K, V>(a: map<K, V>, keys: set<K>, f: (K, V) -> nat, k: K)
    requires k in keys
    ensures OverMap(a, keys, f) == OverMap(a, keys - {k}, f) + if k in a then f(k, a[k]) else 0
  {
    var l :| l in keys && OverMap(a, keys, f) == OverMap(a, keys - {l}, f) + if l in a then f(l, a[l]) else 0;
    if l != k {
      MapSplit(a, keys - {l}, f, k);
      MapSplit(a, keys - {k}, f, l);
      assert keys - {l} - {k} == keys - {k} - {l};
    }
  }

  lemma MapPut<K, V>(a: map<K, V>, keys: set<K>, f: (K, V) -> nat, k: K, v: V)
    requires k in keys && k in a
    ensures OverMap(a[k := v], keys, f) + f(k, a[k]) == OverMap(a, keys, f) + f(k, v)
  {
    MapSplit(a, keys, f, k);
    MapSplit(a[k := v], keys, f, k);
    MapSame(a, a[k := v], keys - {k}, f);
  }

  /** A map that is nowhere heavier, and lighter at `l` if that is one of the keys, has the smaller sum. */
  lemma {:induction false} MapLess<K>(a: map<K, nat>, b: map<K, nat>, keys: set<K>, f: (K, nat) -> nat, l: K)
    requires forall k :: k in keys ==> k in a && k in b && f(k, a[k]) <= f(k, b[k])
    ensures OverMap(a, keys, f) <= OverMap(b, keys, f)
    ensures l in keys && f(l, a[l]) < f(l, b[l]) ==> OverMap(a, keys, f) < OverMap(b, keys, f)
  {
    if keys != {} {
      var k :| k in keys && OverMap(a, keys, f) == OverMap(a, keys - {k}, f) + if k in a then f(k, a[k]) else 0;
      MapSplit(b, keys, f, k);
      MapLess(a, b, keys - {k}, f, l);
    }
  }
}
