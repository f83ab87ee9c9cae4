/** A JavaScript `Map` with string keys, as the server modules use one: its
    entries in insertion order, each key at most once. `set` on a present
    key replaces the value where it stands; `set` on a new key appends;
    `delete` removes the entry; `keys()` lists the keys in that order. */
module JsMap {
  import opened Common

  type Entries<V> = seq<(string, V)>

  predicate Distinct<V>(m: Entries<V>)
  {
    forall i, j :: 0 <= i < j < |m| ==> m[i].0 != m[j].0
  }

  /** Position of a key. */
  function IndexOf<V>(m: Entries<V>, k: string): (r: Option<nat>)
    ensures r.Some? ==> r.value < |m| && m[r.value].0 == k
    ensures r.None? <==> forall i :: 0 <= i < |m| ==> m[i].0 != k
    decreases |m|
  {
    if m == [] then None
    else if m[0].0 == k then Some(0)
    else
      var r := IndexOf(m[1..], k);
      if r.Some? then Some(r.value + 1) else None
  }

  lemma IndexOfDistinct<V>(m: Entries<V>, k: string, i: nat)
    requires Distinct(m) && i < |m| && m[i].0 == k
    ensures IndexOf(m, k) == Some(i)
  {
  }

  /** `map.has(k)` */
  predicate Has<V>(m: Entries<V>, k: string)
  {
    IndexOf(m, k).Some?
  }

  /** `map.get(k)`, `None` standing for `undefined`. */
  function Get<V>(m: Entries<V>, k: string): (r: Option<V>)
    ensures r.Some? <==> Has(m, k)
  {
    var i := IndexOf(m, k);
    if i.Some? then Some(m[i.value].1) else None
  }

  /** `map.set(k, v)` */
  function Set<V>(m: Entries<V>, k: string, v: V): (r: Entries<V>)
    ensures Has(m, k) ==> |r| == |m|
    ensures !Has(m, k) ==> |r| == |m| + 1
  {
    var i := IndexOf(m, k);
    if i.Some? then m[i.value := (k, v)] else m + [(k, v)]
  }

  /** `map.delete(k)` */
  function Delete<V>(m: Entries<V>, k: string): (r: Entries<V>)
    ensures Has(m, k) ==> |r| == |m| - 1
    ensures !Has(m, k) ==> r == m
  {
    var i := IndexOf(m, k);
    if i.Some? then m[..i.value] + m[i.value + 1..] else m
  }

  /** `Array.from(map.keys())` */
  function Keys<V>(m: Entries<V>): (r: seq<string>)
    ensures |r| == |m|
    ensures forall i :: 0 <= i < |m| ==> r[i] == m[i].0
    decreases |m|
  {
    if m == [] then [] else [m[0].0] + Keys(m[1..])
  }

  // ---------------------------------------------------------------------------
  // Properties
  // ---------------------------------------------------------------------------

  /** A key is listed exactly when the map has it, and no key is listed
      twice. */
  lemma KeysListed<V>(m: Entries<V>, k: string)
    requires Distinct(m)
    ensures k in Keys(m) <==> Has(m, k)
    ensures forall i, j :: 0 <= i < j < |Keys(m)| ==> Keys(m)[i] != Keys(m)[j]
  {
    if k in Keys(m) {
      var i :| 0 <= i < |Keys(m)| && Keys(m)[i] == k;
      assert m[i].0 == k;
    }
  }

  /** `set` keeps the keys distinct, and afterwards `get` answers the value
      just stored for that key and what it answered before for any other. */
  lemma SetGet<V>(m: Entries<V>, k: string, v: V, j: string)
    requires Distinct(m)
    ensures Distinct(Set(m, k, v))
    ensures Get(Set(m, k, v), j) == if j == k then Some(v) else Get(m, j)
  {
    var r := Set(m, k, v);
    var i := IndexOf(m, k);
    if i.Some? {
      assert forall n :: 0 <= n < |r| ==> r[n].0 == m[n].0;
      IndexOfDistinct(r, k, i.value);
      if Has(m, j) {
        IndexOfDistinct(r, j, IndexOf(m, j).value);
      }
    } else {
      assert forall n :: 0 <= n < |m| ==> r[n] == m[n];
      IndexOfDistinct(r, k, |m|);
      if Has(m, j) {
        IndexOfDistinct(r, j, IndexOf(m, j).value);
      }
    }
  }

  /** `delete` keeps the keys distinct, and afterwards the key is gone and
      every other key answers as before. */
  lemma DeleteGet<V>(m: Entries<V>, k: string, j: string)
    requires Distinct(m)
    ensures Distinct(Delete(m, k))
    ensures Get(Delete(m, k), j) == if j == k then None else Get(m, j)
  {
    var i := IndexOf(m, k);
    if i.Some? {
      var p := i.value;
      var r := m[..p] + m[p + 1..];
      DeleteAt(m, p);
      if j == k {
        assert forall n :: 0 <= n < |r| ==> r[n].0 != k by {
          forall n | 0 <= n < |r|
            ensures r[n].0 != k
          {
            assert r[n] == m[if n < p then n else n + 1];
          }
        }
      } else if Has(m, j) {
        var q := IndexOf(m, j).value;
        assert q != p;
        IndexOfDistinct(r, j, if q < p then q else q - 1);
      } else {
        assert forall n :: 0 <= n < |r| ==> r[n].0 != j by {
          forall n | 0 <= n < |r|
            ensures r[n].0 != j
          {
            assert r[n] == m[if n < p then n else n + 1];
          }
        }
      }
    }
  }

  /** Taking out the entry at `p` shifts the later ones down by one. */
  lemma DeleteAt<V>(m: Entries<V>, p: nat)
    requires Distinct(m) && p < |m|
    ensures var r := m[..p] + m[p + 1..];
      && |r| == |m| - 1
      && (forall n :: 0 <= n < |r| ==> r[n] == m[if n < p then n else n + 1])
      && Distinct(r)
  {
    var r := m[..p] + m[p + 1..];
    assert forall n :: 0 <= n < |r| ==> r[n] == m[if n < p then n else n + 1];
  }

  /** `set` on a new key appends it to the listing; on a present key the
      listing stays as it was. */
  lemma SetKeys<V>(m: Entries<V>, k: string, v: V)
    ensures Keys(Set(m, k, v)) == if Has(m, k) then Keys(m) else Keys(m) + [k]
  {
  }

  /** `delete` takes exactly that key out of the listing, keeping the order
      of the rest. */
  lemma DeleteKeys<V>(m: Entries<V>, k: string)
    ensures Has(m, k) ==> Keys(Delete(m, k)) == Keys(m)[..IndexOf(m, k).value] + Keys(m)[IndexOf(m, k).value + 1..]
    ensures !Has(m, k) ==> Keys(Delete(m, k)) == Keys(m)
  {
    if Has(m, k) {
      var p := IndexOf(m, k).value;
      var r := Delete(m, k);
      var want := Keys(m)[..p] + Keys(m)[p + 1..];
      assert |Keys(r)| == |want|;
      forall n | 0 <= n < |want|
        ensures Keys(r)[n] == want[n]
      {
        assert r[n] == (if n < p then m[n] else m[n + 1]);
      }
    }
  }
}
