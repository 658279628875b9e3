/** PHP ordered arrays as association lists: keys keep their insertion order,
    assignment to an existing key replaces its value in place, assignment to a
    new key appends, and unset removes. */
module OrderedMap {
  import opened Values

  function Keys<K(==), V>(a: seq<(K, V)>): set<K> {
    if a == [] then {} else {a[0].0} + Keys(a[1..])
  }

  /** Every PHP array has distinct keys. */
  predicate DistinctKeys<K(==), V>(a: seq<(K, V)>) {
    a == [] || (a[0].0 !in Keys(a[1..]) && DistinctKeys(a[1..]))
  }

  /** $a[$k], or null when k is absent. */
  function Get<K(==), V>(a: seq<(K, V)>, k: K): (r: Option<V>)
    ensures r.Some? <==> k in Keys(a)
  {
    if a == [] then None else if a[0].0 == k then Some(a[0].1) else Get(a[1..], k)
  }

  /** Position of the first entry carrying key k. */
  function KeyIndex<K(==), V>(a: seq<(K, V)>, k: K): (i: nat)
    requires k in Keys(a)
    ensures i < |a| && a[i].0 == k
  {
    if a[0].0 == k then 0 else 1 + KeyIndex(a[1..], k)
  }

  /** $a[$k] = $v. */
  function Put<K(==), V>(a: seq<(K, V)>, k: K, v: V): (r: seq<(K, V)>)
    ensures Keys(r) == Keys(a) + {k}
    ensures k !in Keys(a) ==> r == a + [(k, v)]
    ensures DistinctKeys(a) ==> DistinctKeys(r)
    ensures Get(r, k) == Some(v)
  {
    if a == [] then [(k, v)]
    else if a[0].0 == k then [(k, v)] + a[1..]
    else [a[0]] + Put(a[1..], k, v)
  }

  /** unset($a[$k]). */
  function Remove<K(==), V>(a: seq<(K, V)>, k: K): (r: seq<(K, V)>)
    ensures Keys(r) == Keys(a) - {k}
    ensures DistinctKeys(a) ==> DistinctKeys(r)
  {
    if a == [] then []
    else if a[0].0 == k then Remove(a[1..], k)
    else [a[0]] + Remove(a[1..], k)
  }

  lemma {:induction false} KeysAppend<K, V>(a: seq<(K, V)>, b: seq<(K, V)>)
    ensures Keys(a + b) == Keys(a) + Keys(b)
  {
    if a != [] {
      assert (a + b)[0] == a[0] && (a + b)[1..] == a[1..] + b;
      KeysAppend(a[1..], b);
    } else {
      assert a + b == b;
    }
  }

  lemma {:induction false} DistinctAppend<K, V>(a: seq<(K, V)>, b: seq<(K, V)>)
    requires DistinctKeys(a) && DistinctKeys(b) && Keys(a) !! Keys(b)
    ensures DistinctKeys(a + b)
  {
    if a != [] {
      assert (a + b)[0] == a[0] && (a + b)[1..] == a[1..] + b;
      assert a[0].0 in Keys(a);
      DistinctAppend(a[1..], b);
      KeysAppend(a[1..], b);
    } else {
      assert a + b == b;
    }
  }

  /** Keys of a prefix grow by the next entry's key. */
  lemma KeysPrefixStep<K, V>(a: seq<(K, V)>, i: nat)
    requires i < |a|
    ensures Keys(a[..i + 1]) == Keys(a[..i]) + {a[i].0}
  {
    assert a[..i + 1] == a[..i] + [a[i]];
    KeysAppend(a[..i], [a[i]]);
  }

  /** A key is in the array exactly when some entry carries it. */
  lemma {:induction false} KeysIndex<K, V>(a: seq<(K, V)>, k: K)
    ensures k in Keys(a) <==> exists i :: 0 <= i < |a| && a[i].0 == k
  {
    if a != [] {
      KeysIndex(a[1..], k);
      if k in Keys(a[1..]) {
        var i :| 0 <= i < |a[1..]| && a[1..][i].0 == k;
        assert a[i + 1].0 == k;
      }
      if exists i :: 0 <= i < |a| && a[i].0 == k {
        var i :| 0 <= i < |a| && a[i].0 == k;
        if i > 0 {
          assert a[1..][i - 1].0 == k;
        }
      }
    }
  }

  /** Get finds the first entry carrying the key. */
  lemma {:induction false} GetAt<K, V>(a: seq<(K, V)>, k: K, i: nat)
    requires i < |a| && a[i].0 == k
    requires forall j :: 0 <= j < i ==> a[j].0 != k
    ensures Get(a, k) == Some(a[i].1)
  {
    if i > 0 {
      GetAt(a[1..], k, i - 1);
    }
  }

  /** Get misses a key no entry carries. */
  lemma {:induction false} GetAbsent<K, V>(a: seq<(K, V)>, k: K)
    requires forall j :: 0 <= j < |a| ==> a[j].0 != k
    ensures Get(a, k) == None
  {
    if a != [] {
      GetAbsent(a[1..], k);
    }
  }

  /** Assigning one key leaves every other key's value alone. */
  lemma {:induction false} GetPutOther<K, V>(a: seq<(K, V)>, k: K, v: V, other: K)
    requires other != k
    ensures Get(Put(a, k, v), other) == Get(a, other)
  {
    if a != [] && a[0].0 != k {
      GetPutOther(a[1..], k, v, other);
    }
  }

  /** The array read as a map: the first entry of each key gives its value. */
  function ToMap<K(==,!new), V>(a: seq<(K, V)>): (m: map<K, V>)
    ensures forall k :: k in m <==> k in Keys(a)
    ensures forall k :: k in m ==> Get(a, k) == Some(m[k])
  {
    if a == [] then map[] else ToMap(a[1..])[a[0].0 := a[0].1]
  }
}
