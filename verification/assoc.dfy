/** PHP's ordered arrays with string keys, as association lists: a sequence of
    key/value pairs in insertion order. Lookup finds the first pair with the
    key, and assigning `$a[k] = v` updates an existing key in place and
    appends a new one at the end. */
module Assoc {
  import opened Maybe

  type Pairs<V> = seq<(string, V)>

  /** The keys in order (`array_keys`). */
  function Keys<V>(ps: Pairs<V>): (ks: seq<string>)
    ensures |ks| == |ps|
    ensures forall i :: 0 <= i < |ps| ==> ks[i] == ps[i].0
  {
    if |ps| == 0 then [] else [ps[0].0] + Keys(ps[1..])
  }

  /** `array_key_exists(k, a)`. */
  predicate HasKey<V>(ps: Pairs<V>, k: string) {
    exists i :: 0 <= i < |ps| && ps[i].0 == k
  }

  /** No key occurs twice, as in every PHP array. */
  predicate DistinctKeys<V>(ps: Pairs<V>) {
    forall i, j :: 0 <= i < j < |ps| ==> ps[i].0 != ps[j].0
  }

  /** `$a[k]` for a key that may be absent. */
  function Get<V>(ps: Pairs<V>, k: string): (r: Option<V>)
    ensures r.None? <==> !HasKey(ps, k)
    ensures r.Some? ==> exists i :: 0 <= i < |ps| && ps[i] == (k, r.value)
  {
    if |ps| == 0 then None
    else if ps[0].0 == k then Some(ps[0].1)
    else
      assert forall i :: 0 < i < |ps| ==> ps[i] == ps[1..][i - 1];
      Get(ps[1..], k)
  }

  /** `$a[k] = v`: the first pair with key `k` takes the new value where it
      stands; when there is none, the pair is appended. */
  function Put<V>(ps: Pairs<V>, k: string, v: V): (r: Pairs<V>)
    ensures HasKey(ps, k) ==> |r| == |ps|
    ensures !HasKey(ps, k) ==> r == ps + [(k, v)]
  {
    if |ps| == 0 then [(k, v)]
    else if ps[0].0 == k then [(k, v)] + ps[1..]
    else
      assert HasKey(ps, k) <==> HasKey(ps[1..], k) by {
        forall i | 0 < i < |ps| ensures ps[i] == ps[1..][i - 1] { }
      }
      [ps[0]] + Put(ps[1..], k, v)
  }

  /** After an assignment the key reads back the new value, and every other
      key reads what it read before. */
  lemma {:induction false} GetPut<V>(ps: Pairs<V>, k: string, v: V, j: string)
    ensures Get(Put(ps, k, v), j) == if j == k then Some(v) else Get(ps, j)
    decreases |ps|
  {
    if |ps| > 0 && ps[0].0 != k {
      GetPut(ps[1..], k, v, j);
      assert Put(ps, k, v)[1..] == Put(ps[1..], k, v);
    }
  }

  /** An assignment keeps the key order of an existing key and adds a new key
      last. */
  lemma {:induction false} KeysPut<V>(ps: Pairs<V>, k: string, v: V)
    ensures Keys(Put(ps, k, v)) == if HasKey(ps, k) then Keys(ps) else Keys(ps) + [k]
    decreases |ps|
  {
    if |ps| > 0 && ps[0].0 != k {
      KeysPut(ps[1..], k, v);
      assert HasKey(ps, k) <==> HasKey(ps[1..], k) by {
        forall i | 0 < i < |ps| ensures ps[i] == ps[1..][i - 1] { }
      }
      assert Put(ps, k, v) == [ps[0]] + Put(ps[1..], k, v);
      assert Put(ps, k, v)[1..] == Put(ps[1..], k, v);
    }
  }

  /** Assigning the value a key already has changes nothing; in particular
      assigning twice is assigning once. */
  lemma {:induction false} PutPresent<V>(ps: Pairs<V>, k: string, v: V)
    requires Get(ps, k) == Some(v)
    ensures Put(ps, k, v) == ps
    decreases |ps|
  {
    if ps[0].0 != k {
      PutPresent(ps[1..], k, v);
    }
  }

  /** Assigning keeps the keys distinct. */
  lemma PutDistinct<V>(ps: Pairs<V>, k: string, v: V)
    requires DistinctKeys(ps)
    ensures DistinctKeys(Put(ps, k, v))
  {
    var r := Put(ps, k, v);
    KeysPut(ps, k, v);
    var ks := Keys(r);
    if HasKey(ps, k) {
      assert forall i :: 0 <= i < |r| ==> r[i].0 == ks[i] == ps[i].0;
    } else {
      assert forall i :: 0 <= i < |ps| ==> r[i].0 == ps[i].0;
    }
  }

  /** With distinct keys, every listed pair is what its key reads. */
  lemma {:induction false} GetAt<V>(ps: Pairs<V>, i: nat)
    requires DistinctKeys(ps) && i < |ps|
    ensures Get(ps, ps[i].0) == Some(ps[i].1)
    decreases i
  {
    if i > 0 {
      assert ps[1..][i - 1] == ps[i];
      GetAt(ps[1..], i - 1);
    }
  }

  /** Reading a pair list with one pair put in front. */
  lemma GetCons<V>(k: string, v: V, ps: Pairs<V>, j: string)
    ensures Get([(k, v)] + ps, j) == if j == k then Some(v) else Get(ps, j)
  {
    assert ([(k, v)] + ps)[1..] == ps;
  }
}
