/** The insertion-ordered dictionaries of the program, as sequences of pairs. */
module Dicts {
  import opened Options

  function Keys<K, V>(d: seq<(K, V)>): (keys: seq<K>)
    ensures |keys| == |d| && forall i :: 0 <= i < |d| ==> keys[i] == d[i].0
  {
    seq(|d|, i requires 0 <= i < |d| => d[i].0)
  }

  function Get<K(==), V>(d: seq<(K, V)>, key: K): (value: Option<V>)
    ensures value.Some? ==> (key, value.value) in d
    ensures value.None? ==> forall p :: p in d ==> p.0 != key
  {
    if d == [] then None else if d[0].0 == key then Some(d[0].1) else Get(d[1..], key)
  }

  function Remove<K(==), V>(d: seq<(K, V)>, key: K): (rest: seq<(K, V)>)
    ensures forall p :: p in rest ==> p in d && p.0 != key
    ensures forall p :: p in d && p.0 != key ==> p in rest
    ensures |rest| <= |d|
  {
    if d == [] then [] else if d[0].0 == key then Remove(d[1..], key) else [d[0]] + Remove(d[1..], key)
  }

  /** `d[key] = value`: in its place when the key is there, behind all others when it is new. */
  function Put<K(==), V>(d: seq<(K, V)>, key: K, value: V): seq<(K, V)> {
    if d == [] then [(key, value)]
    else if d[0].0 == key then [(key, value)] + d[1..]
    else [d[0]] + Put(d[1..], key, value)
  }

  /** The same, moved behind all others. */
  function PutLast<K(==), V>(d: seq<(K, V)>, key: K, value: V): seq<(K, V)> {
    Remove(d, key) + [(key, value)]
  }

  /** No key twice. */
  ghost predicate IsDict<K, V>(d: seq<(K, V)>) {
    d == [] || ((forall p :: p in d[1..] ==> p.0 != d[0].0) && IsDict(d[1..]))
  }

  lemma {:induction false} GetOf<K, V>(d: seq<(K, V)>, key: K, value: V)
    requires IsDict(d) && (key, value) in d
    ensures Get(d, key) == Some(value)
  {
    if d[0] != (key, value) {
      GetOf(d[1..], key, value);
    }
  }

  lemma {:induction false} RemoveIsDict<K, V>(d: seq<(K, V)>, key: K)
    requires IsDict(d)
    ensures IsDict(Remove(d, key))
    ensures forall k :: Get(Remove(d, key), k) == if k == key then None else Get(d, k)
  {
    if d != [] {
      RemoveIsDict(d[1..], key);
      var rest := Remove(d[1..], key);
      assert ([d[0]] + rest)[1..] == rest;
    }
  }

  lemma {:induction false} AppendIsDict<K, V>(d: seq<(K, V)>, key: K, value: V)
    requires IsDict(d) && forall p :: p in d ==> p.0 != key
    ensures IsDict(d + [(key, value)])
    ensures forall k :: Get(d + [(key, value)], k) == if k == key then Some(value) else Get(d, k)
  {
    if d != [] {
      AppendIsDict(d[1..], key, value);
      assert (d + [(key, value)])[1..] == d[1..] + [(key, value)];
    }
  }

  lemma PutLastIsDict<K, V>(d: seq<(K, V)>, key: K, value: V)
    requires IsDict(d)
    ensures IsDict(PutLast(d, key, value))
    ensures forall k :: Get(PutLast(d, key, value), k) == if k == key then Some(value) else Get(d, k)
  {
    RemoveIsDict(d, key);
    AppendIsDict(Remove(d, key), key, value);
  }

  lemma {:induction false} PutIsDict<K, V>(d: seq<(K, V)>, key: K, value: V)
    requires IsDict(d)
    ensures IsDict(Put(d, key, value))
    ensures forall k :: Get(Put(d, key, value), k) == if k == key then Some(value) else Get(d, k)
    ensures forall p :: p in Put(d, key, value) ==> p in d || p == (key, value)
  {
    if d != [] {
      if d[0].0 == key {
        assert ([(key, value)] + d[1..])[1..] == d[1..];
      } else {
        PutIsDict(d[1..], key, value);
        var rest := Put(d[1..], key, value);
        assert ([d[0]] + rest)[1..] == rest;
      }
    }
  }

  lemma {:induction false} RemoveAbsent<K, V>(d: seq<(K, V)>, key: K)
    requires Get(d, key).None?
    ensures Remove(d, key) == d
  {
    if d != [] {
      RemoveAbsent(d[1..], key);
    }
  }

  lemma {:induction false} KeysApart<K, V>(d: seq<(K, V)>, i: nat, j: nat)
    requires IsDict(d) && i < j < |d|
    ensures d[i].0 != d[j].0
  {
    if i == 0 {
      assert d[j] == d[1..][j - 1];
    } else {
      KeysApart(d[1..], i - 1, j - 1);
    }
  }
}
