/** Small vocabulary shared by every module: optional values, raw bytes, and
    totals over finite maps (used by the termination measures and the lease accounts). */
module Base {

  /** Go's nil-able slices and zero times: `None` is the absent value. */
  datatype Option<+T> = None | Some(value: T)

  newtype byte = b: int | 0 <= b < 256

  type Bytes = seq<byte>

  predicate NoDuplicates<T(==)>(s: seq<T>) {
    forall i, j :: 0 <= i < j < |s| ==> s[i] != s[j]
  }

  lemma Associative<T>(a: seq<T>, b: seq<T>, c: seq<T>)
    ensures a + b + c == a + (b + c)
  {
  }

  /** The sum of all the values of a finite map. */
  ghost function Total<K(!new)>(m: map<K, nat>): nat {
    if m == map[] then 0
    else
      var k :| k in m;
      m[k] + Total(m - {k})
  }

  lemma {:induction false} TotalRemove<K(!new)>(m: map<K, nat>, k: K)
    requires k in m
    ensures Total(m) == m[k] + Total(m - {k})
    decreases |m|
  {
    var p :| p in m && Total(m) == m[p] + Total(m - {p});
    if p != k {
      TotalRemove(m - {p}, k);
      TotalRemove(m - {k}, p);
      assert m - {p} - {k} == m - {k} - {p};
    }
  }

  /** Changing one value changes the total by exactly that difference. */
  lemma TotalUpdate<K(!new)>(m: map<K, nat>, k: K, v: nat)
    requires k in m
    ensures Total(m[k := v]) + m[k] == Total(m) + v
  {
    TotalRemove(m, k);
    TotalRemove(m[k := v], k);
    assert m[k := v] - {k} == m - {k};
  }

  lemma TotalInsert<K(!new)>(m: map<K, nat>, k: K, v: nat)
    requires k !in m
    ensures Total(m[k := v]) == Total(m) + v
  {
    TotalRemove(m[k := v], k);
    assert m[k := v] - {k} == m;
  }

  lemma {:induction false} TotalLe<K(!new)>(m: map<K, nat>, m': map<K, nat>)
    requires m.Keys == m'.Keys
    requires forall k :: k in m ==> m[k] <= m'[k]
    ensures Total(m) <= Total(m')
    decreases |m|
  {
    if m != map[] {
      var k :| k in m;
      TotalRemove(m, k);
      TotalRemove(m', k);
      TotalLe(m - {k}, m' - {k});
    } else {
      assert m' == map[];
    }
  }

  /** Pointwise no larger, and smaller by `d` at one key. */
  lemma TotalDrop<K(!new)>(m: map<K, nat>, m': map<K, nat>, k: K, d: nat)
    requires m.Keys == m'.Keys && k in m
    requires forall j :: j in m ==> m'[j] <= m[j]
    requires m'[k] + d <= m[k]
    ensures Total(m') + d <= Total(m)
  {
    TotalRemove(m, k);
    TotalRemove(m', k);
    TotalLe(m' - {k}, m - {k});
  }

  /** Adding at most `w` at each key of `ks` adds at most `w * |ks|` to the total. */
  lemma {:induction false} TotalRaise<K(!new)>(m: map<K, nat>, m': map<K, nat>, ks: set<K>, w: nat)
    requires m.Keys == m'.Keys && ks <= m.Keys
    requires forall k :: k in m && k in ks ==> m'[k] <= m[k] + w
    requires forall k :: k in m && k !in ks ==> m'[k] <= m[k]
    ensures Total(m') <= Total(m) + w * |ks|
    decreases |m|
  {
    if m == map[] {
      assert m' == map[];
      assert ks == {};
    } else {
      var k :| k in m;
      TotalRemove(m, k);
      TotalRemove(m', k);
      TotalRaise(m - {k}, m' - {k}, ks - {k}, w);
      if k in ks {
        assert |ks - {k}| == |ks| - 1;
        assert w * |ks| == w * |ks - {k}| + w by { Distribute(w, |ks| - 1); }
      } else {
        assert ks - {k} == ks;
      }
    }
  }

  lemma Distribute(w: nat, n: nat)
    ensures w * (n + 1) == w * n + w
  {
  }

  /** Every finite set of naturals has an upper bound. */
  lemma {:induction false} BoundExists(s: set<nat>) returns (b: nat)
    ensures forall x :: x in s ==> x <= b
    decreases |s|
  {
    if s == {} {
      b := 0;
    } else {
      var x :| x in s;
      var c := BoundExists(s - {x});
      b := if c < x then x else c;
      forall y | y in s ensures y <= b {
        if y != x { assert y in s - {x}; }
      }
    }
  }
}
