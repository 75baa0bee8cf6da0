/**
 * Python's built-in `dict` as the backend uses it: an insertion-ordered
 * association list.  Assigning to a key that is present replaces its value in
 * place (the key keeps its position); assigning to a new key appends it;
 * `pop(k, None)` removes the key if present.  Iteration (`items()`, `keys()`)
 * follows the list order.  A value built only with these operations never holds
 * a key twice (`IsDict`).
 */
module Dicts {
  import opened Outcomes

  type Dict<K, V> = seq<(K, V)>

  /** The keys in iteration order (`list(d.keys())`). */
  function Keys<K, V>(d: Dict<K, V>): (ks: seq<K>)
    ensures |ks| == |d|
  {
    if d == [] then [] else [d[0].0] + Keys(d[1..])
  }

  /** The i-th key is the key of the i-th entry. */
  lemma {:induction false} KeyAt<K, V>(d: Dict<K, V>, i: nat)
    requires i < |d|
    ensures Keys(d)[i] == d[i].0
  {
    if i > 0 {
      KeyAt(d[1..], i - 1);
    }
  }

  /** A key is present exactly when some entry carries it. */
  lemma KeyIn<K, V>(d: Dict<K, V>, k: K)
    ensures k in Keys(d) <==> exists i :: 0 <= i < |d| && d[i].0 == k
  {
    forall i | 0 <= i < |d| {
      KeyAt(d, i);
    }
  }

  /** No key occurs twice: what every Python dict satisfies. */
  predicate IsDict<K(==), V>(d: Dict<K, V>)
  {
    forall i, j :: 0 <= i < j < |d| ==> d[i].0 != d[j].0
  }

  /** `d.get(k)`: the value stored under `k`, or `None`. */
  function Get<K(==), V>(d: Dict<K, V>, k: K): (r: Option<V>)
    ensures r.Some? <==> k in Keys(d)
  {
    if d == [] then None
    else if d[0].0 == k then Some(d[0].1)
    else Get(d[1..], k)
  }

  /** In a dict, the value `get` finds is the one stored beside the key. */
  lemma {:induction false} GetAt<K, V>(d: Dict<K, V>, i: nat)
    requires IsDict(d) && i < |d|
    ensures Get(d, d[i].0) == Some(d[i].1)
  {
    if i > 0 {
      assert IsDict(d[1..]);
      GetAt(d[1..], i - 1);
    }
  }

  /** `d[k] = v`. */
  function Put<K(==,!new), V>(d: Dict<K, V>, k: K, v: V): (r: Dict<K, V>)
    ensures Get(r, k) == Some(v)
    ensures forall k' :: k' != k ==> Get(r, k') == Get(d, k')
  {
    if d == [] then [(k, v)]
    else if d[0].0 == k then [(k, v)] + d[1..]
    else [d[0]] + Put(d[1..], k, v)
  }

  /** A present key keeps its position; a new key is appended at the end. */
  lemma PutKeys<K(!new), V>(d: Dict<K, V>, k: K, v: V)
    ensures Keys(Put(d, k, v)) == if k in Keys(d) then Keys(d) else Keys(d) + [k]
    ensures k !in Keys(d) ==> Put(d, k, v) == d + [(k, v)]
    ensures |Put(d, k, v)| == if k in Keys(d) then |d| else |d| + 1
  {
    PutKeyOrder(d, k, v);
    PutAppends(d, k, v);
  }

  lemma {:induction false} PutKeyOrder<K(!new), V>(d: Dict<K, V>, k: K, v: V)
    ensures Keys(Put(d, k, v)) == if k in Keys(d) then Keys(d) else Keys(d) + [k]
  {
    if d == [] {
    } else if d[0].0 == k {
      assert ([(k, v)] + d[1..])[1..] == d[1..];
    } else {
      PutKeyOrder(d[1..], k, v);
      var t := Put(d[1..], k, v);
      var r := Put(d, k, v);
      assert r == [d[0]] + t;
      assert r[1..] == t;
      assert Keys(r) == [d[0].0] + Keys(t);
      assert Keys(d) == [d[0].0] + Keys(d[1..]);
    }
  }

  lemma {:induction false} PutAppends<K(!new), V>(d: Dict<K, V>, k: K, v: V)
    ensures k !in Keys(d) ==> Put(d, k, v) == d + [(k, v)]
  {
    if d != [] && d[0].0 != k && k !in Keys(d) {
      assert Keys(d) == [d[0].0] + Keys(d[1..]);
      PutAppends(d[1..], k, v);
      assert d == [d[0]] + d[1..];
    }
  }

  /** Assigning the value a key already has changes nothing. */
  lemma {:induction false} PutSame<K(!new), V>(d: Dict<K, V>, k: K, v: V)
    requires Get(d, k) == Some(v)
    ensures Put(d, k, v) == d
  {
    if d[0].0 != k {
      PutSame(d[1..], k, v);
    }
  }

  /** Every entry after an assignment is the new one or was there before; no key is duplicated. */
  lemma {:induction false} PutEntries<K(!new), V>(d: Dict<K, V>, k: K, v: V)
    ensures forall i :: 0 <= i < |Put(d, k, v)| ==> Put(d, k, v)[i] == (k, v) || Put(d, k, v)[i] in d
    ensures IsDict(d) ==> IsDict(Put(d, k, v))
  {
    PutFrom(d, k, v);
    if IsDict(d) {
      PutDistinct(d, k, v);
    }
  }

  lemma {:induction false} PutFrom<K(!new), V>(d: Dict<K, V>, k: K, v: V)
    ensures forall i :: 0 <= i < |Put(d, k, v)| ==> Put(d, k, v)[i] == (k, v) || Put(d, k, v)[i] in d
  {
    if d != [] && d[0].0 != k {
      PutFrom(d[1..], k, v);
      assert Put(d, k, v) == [d[0]] + Put(d[1..], k, v);
    }
  }

  lemma {:induction false} PutDistinct<K(!new), V>(d: Dict<K, V>, k: K, v: V)
    requires IsDict(d)
    ensures IsDict(Put(d, k, v))
  {
    if d != [] && d[0].0 != k {
      var t := Put(d[1..], k, v);
      assert IsDict(d[1..]);
      PutDistinct(d[1..], k, v);
      PutFrom(d[1..], k, v);
      var r := Put(d, k, v);
      assert r == [d[0]] + t;
      forall i, j | 0 <= i < j < |r| ensures r[i].0 != r[j].0 {
        if i == 0 {
          assert r[j] == t[j - 1];
          if r[j] != (k, v) {
            var m :| 0 <= m < |d[1..]| && d[1..][m] == r[j];
            assert d[m + 1] == r[j];
          }
        }
      }
    }
  }

  /** Position of the first entry for `k`. */
  function IndexOf<K(==), V>(d: Dict<K, V>, k: K): (i: nat)
    requires k in Keys(d)
    ensures i < |d| && d[i].0 == k
    ensures forall j :: 0 <= j < i ==> d[j].0 != k
  {
    if d[0].0 == k then 0 else 1 + IndexOf(d[1..], k)
  }

  /** `d.pop(k, None)`: drops the entry for `k`, keeping the order of the others. */
  function Remove<K(==,!new), V>(d: Dict<K, V>, k: K): (r: Dict<K, V>)
    ensures forall k' :: k' != k ==> Get(r, k') == Get(d, k')
  {
    if d == [] then []
    else if d[0].0 == k then d[1..]
    else [d[0]] + Remove(d[1..], k)
  }

  /** `pop` of an absent key is a no-op; otherwise exactly that one entry goes. */
  lemma {:induction false} RemoveShape<K(!new), V>(d: Dict<K, V>, k: K)
    ensures k !in Keys(d) ==> Remove(d, k) == d
    ensures k in Keys(d) ==> Remove(d, k) == d[..IndexOf(d, k)] + d[IndexOf(d, k) + 1..]
  {
    if d != [] && d[0].0 != k {
      var tail := d[1..];
      RemoveShape(tail, k);
      assert Keys(d) == [d[0].0] + Keys(tail);
      if k in Keys(d) {
        var i := IndexOf(d, k);
        assert IndexOf(tail, k) == i - 1;
        assert tail[..i - 1] == d[1..i];
        assert tail[i..] == d[i + 1..];
        assert [d[0]] + d[1..i] == d[..i];
      }
    }
  }

  /** After `pop` from a dict, the key is gone and no key is duplicated. */
  lemma RemoveGone<K(!new), V>(d: Dict<K, V>, k: K)
    requires IsDict(d)
    ensures IsDict(Remove(d, k)) && k !in Keys(Remove(d, k))
  {
    RemoveShape(d, k);
    if k in Keys(d) {
      var i := IndexOf(d, k);
      var r := Remove(d, k);
      RemoveAt(d, i, r);
      KeyIn(r, k);
    }
  }

  /** Dropping the entry at `i`: later entries move down by one. */
  lemma RemoveAt<K, V>(d: Dict<K, V>, i: nat, r: Dict<K, V>)
    requires i < |d| && r == d[..i] + d[i + 1..]
    ensures |r| == |d| - 1
    ensures forall j :: 0 <= j < i ==> r[j] == d[j]
    ensures forall j :: i <= j < |r| ==> r[j] == d[j + 1]
  {
  }

  /** `pop` shrinks the dict by one exactly when the key was present. */
  lemma RemoveSize<K(!new), V>(d: Dict<K, V>, k: K)
    ensures |Remove(d, k)| == if k in Keys(d) then |d| - 1 else |d|
  {
    RemoveShape(d, k);
  }

  /** In a dict the key list names each key once. */
  lemma KeysDistinct<K, V>(d: Dict<K, V>)
    requires IsDict(d)
    ensures forall i, j :: 0 <= i < j < |d| ==> Keys(d)[i] != Keys(d)[j]
  {
    forall i | 0 <= i < |d| {
      KeyAt(d, i);
    }
  }
}
