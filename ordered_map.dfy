/** A JavaScript `Map`: its entries kept in insertion order, one entry per key.
    `set` on a key already present replaces that entry's value where it stands;
    on a new key it appends an entry. */
module OrderedMap {
  import opened Runtime

  ghost predicate DistinctKeys<K, V>(m: seq<(K, V)>) {
    forall i, j :: 0 <= i < j < |m| ==> m[i].0 != m[j].0
  }

  predicate HasKey<K(==), V>(m: seq<(K, V)>, k: K) {
    exists i :: 0 <= i < |m| && m[i].0 == k
  }

  /** `m.get(k)`, `null` standing for `undefined`. */
  function Get<K(==), V>(m: seq<(K, V)>, k: K): (r: Option<V>)
    ensures r.Some? <==> HasKey(m, k)
    decreases |m|
  {
    if m == [] then None
    else if m[0].0 == k then Some(m[0].1)
    else Get(m[1..], k)
  }

  /** `m.set(k, v)`. Keys keep their positions; a new key goes last. */
  function Set<K(==), V>(m: seq<(K, V)>, k: K, v: V): (r: seq<(K, V)>)
    ensures |r| == if HasKey(m, k) then |m| else |m| + 1
    ensures forall i :: 0 <= i < |m| ==> r[i].0 == m[i].0
    ensures forall i :: 0 <= i < |m| && m[i].0 != k ==> r[i] == m[i]
    ensures !HasKey(m, k) ==> r[|m|] == (k, v)
    decreases |m|
  {
    if m == [] then [(k, v)]
    else if m[0].0 == k then [(k, v)] + m[1..]
    else
      assert HasKey(m[1..], k) ==> HasKey(m, k) by {
        if HasKey(m[1..], k) {
          var i :| 0 <= i < |m[1..]| && m[1..][i].0 == k;
          assert m[i + 1].0 == k;
        }
      }
      assert HasKey(m, k) ==> HasKey(m[1..], k) by {
        if HasKey(m, k) {
          var i :| 0 <= i < |m| && m[i].0 == k;
          assert i > 0 && m[1..][i - 1].0 == k;
        }
      }
      [m[0]] + Set(m[1..], k, v)
  }

  /** After `m.set(k, v)`, `m.get(k)` is `v`. */
  lemma {:induction false} GetSetSame<K, V>(m: seq<(K, V)>, k: K, v: V)
    ensures Get(Set(m, k, v), k) == Some(v)
    decreases |m|
  {
    if m != [] && m[0].0 != k {
      GetSetSame(m[1..], k, v);
      assert Set(m, k, v)[1..] == Set(m[1..], k, v);
    }
  }

  /** `m.set(k, v)` leaves the value of every other key as it was. */
  lemma {:induction false} GetSetOther<K, V>(m: seq<(K, V)>, k: K, v: V, k': K)
    requires k' != k
    ensures Get(Set(m, k, v), k') == Get(m, k')
    decreases |m|
  {
    if m == [] {
    } else if m[0].0 == k {
      assert Set(m, k, v)[1..] == m[1..];
    } else if m[0].0 != k' {
      GetSetOther(m[1..], k, v, k');
      assert Set(m, k, v)[1..] == Set(m[1..], k, v);
    }
  }

  /** `m.set(k, v)` keeps the map's one-entry-per-key shape. */
  lemma SetDistinct<K, V>(m: seq<(K, V)>, k: K, v: V)
    requires DistinctKeys(m)
    ensures DistinctKeys(Set(m, k, v))
  {
    var r := Set(m, k, v);
    forall i, j | 0 <= i < j < |r| ensures r[i].0 != r[j].0 {
      if j == |m| {
        assert !HasKey(m, k) && r[j].0 == k;
        assert m[i].0 != k;
      }
    }
  }
}
