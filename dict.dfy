/**
 * A JavaScript plain object used as a dictionary: a sequence of key/value
 * pairs in enumeration order. Assigning to a present key replaces its value
 * where it stands; assigning to a new key appends it. (JavaScript enumerates
 * integer-like keys first, in ascending order; this model keeps insertion
 * order for every key.)
 */
module Dict {
  import opened Wrappers

  /** `Object.keys(obj)`. */
  function Keys<K, V>(d: seq<(K, V)>): (ks: seq<K>)
    ensures |ks| == |d|
    ensures forall i | 0 <= i < |d| :: ks[i] == d[i].0
  {
    if d == [] then [] else [d[0].0] + Keys(d[1..])
  }

  /** `Object.values(obj)`. */
  function Values<K, V>(d: seq<(K, V)>): (vs: seq<V>)
    ensures |vs| == |d|
    ensures forall i | 0 <= i < |d| :: vs[i] == d[i].1
  {
    if d == [] then [] else [d[0].1] + Values(d[1..])
  }

  /** `k in obj`. */
  predicate HasKey<K(==), V>(d: seq<(K, V)>, k: K) {
    d != [] && (d[0].0 == k || HasKey(d[1..], k))
  }

  /** A well-formed object: no key occurs twice. */
  predicate Valid<K(==), V>(d: seq<(K, V)>) {
    d == [] || (!HasKey(d[1..], d[0].0) && Valid(d[1..]))
  }

  /** `obj[k]`, with `None` for a missing key. */
  function Get<K(==), V>(d: seq<(K, V)>, k: K): (r: Option<V>)
    ensures r.Some? <==> HasKey(d, k)
  {
    if d == [] then None
    else if d[0].0 == k then Some(d[0].1)
    else Get(d[1..], k)
  }

  /** `obj[k] = v`. */
  function Put<K(==,!new), V>(d: seq<(K, V)>, k: K, v: V): (r: seq<(K, V)>)
    ensures Get(r, k) == Some(v)
    ensures forall k' | k' != k :: Get(r, k') == Get(d, k')
    ensures forall k' :: HasKey(r, k') <==> HasKey(d, k') || k' == k
    ensures Valid(d) ==> Valid(r)
  {
    if d == [] then [(k, v)]
    else if d[0].0 == k then [(k, v)] + d[1..]
    else [d[0]] + Put(d[1..], k, v)
  }

  /** Assigning a present key keeps `Object.keys` as it was; assigning a new key appends it. */
  lemma {:induction false} PutKeys<K(!new), V>(d: seq<(K, V)>, k: K, v: V)
    ensures Keys(Put(d, k, v)) == if HasKey(d, k) then Keys(d) else Keys(d) + [k]
  {
    if d != [] && d[0].0 != k {
      PutKeys(d[1..], k, v);
    }
  }

  /** `delete obj[k]`: the key is gone, every other key reads as before and keeps its place. */
  function Remove<K(==,!new), V>(d: seq<(K, V)>, k: K): (r: seq<(K, V)>)
    ensures !HasKey(r, k)
    ensures forall k' | k' != k :: Get(r, k') == Get(d, k')
    ensures forall k' :: HasKey(r, k') <==> HasKey(d, k') && k' != k
    ensures Valid(d) ==> Valid(r) && |r| == (if HasKey(d, k) then |d| - 1 else |d|)
  {
    if d == [] then []
    else if d[0].0 == k then Remove(d[1..], k)
    else [d[0]] + Remove(d[1..], k)
  }

  /** The value the last occurrence of `k` in `e` carries: the one that survives assigning `e` in order. */
  function LastValue<K(==), V>(e: seq<(K, V)>, k: K): (r: Option<V>)
    ensures r.Some? <==> HasKey(e, k)
  {
    if e == [] then None
    else
      var later := LastValue(e[1..], k);
      if later.Some? then later
      else if e[0].0 == k then Some(e[0].1)
      else None
  }

  /** `Object.assign(d, e)`: the entries of `e` assigned into `d`, in order. */
  function Assign<K(==,!new), V>(d: seq<(K, V)>, e: seq<(K, V)>): (r: seq<(K, V)>)
    ensures forall k :: Get(r, k) == if HasKey(e, k) then LastValue(e, k) else Get(d, k)
    ensures forall k :: HasKey(r, k) <==> HasKey(d, k) || HasKey(e, k)
    ensures Valid(d) ==> Valid(r)
    decreases e
  {
    if e == [] then d
    else Assign(Put(d, e[0].0, e[0].1), e[1..])
  }

  /** In an object without repeated keys the last occurrence is the only one. */
  lemma {:induction false} LastValueOfValid<K, V>(e: seq<(K, V)>, k: K)
    requires Valid(e)
    ensures LastValue(e, k) == Get(e, k)
  {
    if e != [] {
      LastValueOfValid(e[1..], k);
    }
  }

  /** The keys `Object.keys` lists are exactly the keys present. */
  lemma {:induction false} KeysMembers<K, V>(d: seq<(K, V)>)
    ensures forall k :: k in Keys(d) <==> HasKey(d, k)
  {
    if d != [] {
      KeysMembers(d[1..]);
    }
  }

  /** In a well-formed object every entry is what reading its key gives. */
  lemma {:induction false} GetAt<K, V>(d: seq<(K, V)>, i: nat)
    requires Valid(d) && i < |d|
    ensures Get(d, d[i].0) == Some(d[i].1)
  {
    if i > 0 {
      GetAt(d[1..], i - 1);
      NotHasKeyGet(d[1..], d[0].0);
      assert d[1..][i - 1] == d[i];
    }
  }

  lemma NotHasKeyGet<K, V>(d: seq<(K, V)>, k: K)
    ensures !HasKey(d, k) ==> Get(d, k) == None
  {
  }

  /** In a well-formed object `Object.keys` lists no key twice. */
  lemma {:induction false} KeysDistinct<K, V>(d: seq<(K, V)>)
    requires Valid(d)
    ensures forall i, j | 0 <= i < j < |Keys(d)| :: Keys(d)[i] != Keys(d)[j]
  {
    if d != [] {
      KeysDistinct(d[1..]);
      KeysMembers(d[1..]);
      assert Keys(d) == [d[0].0] + Keys(d[1..]);
      forall i, j | 0 <= i < j < |Keys(d)|
        ensures Keys(d)[i] != Keys(d)[j]
      {
        if i == 0 {
          assert Keys(d)[j] == Keys(d[1..])[j - 1];
          assert Keys(d[1..])[j - 1] in Keys(d[1..]);
        } else {
          assert Keys(d)[i] == Keys(d[1..])[i - 1] && Keys(d)[j] == Keys(d[1..])[j - 1];
        }
      }
    }
  }

  /** Assigning a new key appends it at the end. */
  lemma {:induction false} PutNew<K(!new), V>(d: seq<(K, V)>, k: K, v: V)
    requires !HasKey(d, k)
    ensures Put(d, k, v) == d + [(k, v)]
  {
    if d != [] {
      PutNew(d[1..], k, v);
      assert [d[0]] + (d[1..] + [(k, v)]) == d + [(k, v)];
    }
  }

  /** Deleting a key keeps only entries that were there. */
  lemma {:induction false} RemoveEntries<K(!new), V>(d: seq<(K, V)>, k: K)
    ensures forall p | p in Remove(d, k) :: p in d
  {
    if d != [] {
      RemoveEntries(d[1..], k);
    }
  }

  /** Assigning a key keeps the other entries and adds only the assigned one. */
  lemma {:induction false} PutEntries<K(!new), V>(d: seq<(K, V)>, k: K, v: V)
    ensures forall p | p in Put(d, k, v) :: p in d || p == (k, v)
  {
    if d != [] && d[0].0 != k {
      PutEntries(d[1..], k, v);
    }
  }

  /** Every entry of `Object.assign(d, e)` comes from `d` or from `e`. */
  lemma {:induction false} AssignEntries<K(!new), V>(d: seq<(K, V)>, e: seq<(K, V)>)
    ensures forall p | p in Assign(d, e) :: p in d || p in e
    decreases e
  {
    if e != [] {
      PutEntries(d, e[0].0, e[0].1);
      AssignEntries(Put(d, e[0].0, e[0].1), e[1..]);
    }
  }

  /** The last value of a present key is carried by one of its entries. */
  lemma {:induction false} LastValueAt<K, V>(e: seq<(K, V)>, k: K) returns (i: nat)
    requires HasKey(e, k)
    ensures i < |e| && e[i].0 == k && LastValue(e, k) == Some(e[i].1)
  {
    if LastValue(e[1..], k).Some? {
      var j := LastValueAt(e[1..], k);
      i := j + 1;
    } else {
      i := 0;
    }
  }
}
