/**
 * A Python `dict` with string keys, as an insertion-ordered association list.
 * Assigning to a key that is present replaces its value where it stands;
 * assigning to a new key appends it, exactly as CPython's dict keeps order.
 * The operations are recursive on the list; what they guarantee is proved
 * in the lemmas below rather than carried as postconditions, so that the
 * code using a dict only unfolds what it needs.
 */
module Dict {
  import opened Wrappers

  type Dict<V> = seq<(string, V)>

  /** The keys of `d`. */
  function Keys<V>(d: Dict<V>): set<string>
  {
    if d == [] then {} else {d[0].0} + Keys(d[1..])
  }

  /** No key occurs twice: the representation invariant of a dict. */
  predicate DistinctKeys<V>(d: Dict<V>)
  {
    d == [] || (d[0].0 !in Keys(d[1..]) && DistinctKeys(d[1..]))
  }

  /** `d.get(k)`: the value stored under `k`, if any. */
  function Get<V>(d: Dict<V>, k: string): Option<V>
  {
    if d == [] then None
    else if d[0].0 == k then Some(d[0].1)
    else Get(d[1..], k)
  }

  /** `d[k] = v`: replaces the value of a present key in place, or appends a new key. */
  function Put<V>(d: Dict<V>, k: string, v: V): Dict<V>
  {
    if d == [] then [(k, v)]
    else if d[0].0 == k then [(k, v)] + d[1..]
    else [d[0]] + Put(d[1..], k, v)
  }

  // ----- what the operations guarantee -----

  /** A key is present exactly when some entry carries it. */
  lemma {:induction false} KeysIndex<V>(d: Dict<V>, k: string)
    ensures k in Keys(d) <==> exists i | 0 <= i < |d| :: d[i].0 == k
  {
    if d != [] {
      KeysIndex(d[1..], k);
      if k in Keys(d[1..]) {
        var i :| 0 <= i < |d[1..]| && d[1..][i].0 == k;
        assert d[i + 1].0 == k;
      }
      if exists i | 0 <= i < |d| :: d[i].0 == k {
        var i :| 0 <= i < |d| && d[i].0 == k;
        if i > 0 {
          assert d[1..][i - 1].0 == k;
        }
      }
    }
  }

  /** In a dict no two entries share a key. */
  lemma {:induction false} DistinctKeysIndex<V>(d: Dict<V>, i: nat, j: nat)
    requires DistinctKeys(d) && i < j < |d|
    ensures d[i].0 != d[j].0
  {
    if i == 0 {
      KeysIndex(d[1..], d[j].0);
      assert d[1..][j - 1].0 == d[j].0;
    } else {
      DistinctKeysIndex(d[1..], i - 1, j - 1);
    }
  }

  /** `get` finds exactly the keys that are present, and what it finds was stored under that key. */
  lemma {:induction false} GetKeys<V>(d: Dict<V>, k: string)
    ensures Get(d, k).Some? <==> k in Keys(d)
    ensures Get(d, k).Some? ==> (k, Get(d, k).value) in d
  {
    if d != [] && d[0].0 != k {
      GetKeys(d[1..], k);
      if Get(d, k).Some? {
        assert (k, Get(d, k).value) in d[1..];
      }
    }
  }

  /** In a dict, `get` returns the value of the one entry carrying the key. */
  lemma {:induction false} GetIndex<V>(d: Dict<V>, i: nat)
    requires DistinctKeys(d) && i < |d|
    ensures Get(d, d[i].0) == Some(d[i].1)
  {
    if i > 0 {
      DistinctKeysIndex(d, 0, i);
      GetIndex(d[1..], i - 1);
    }
  }

  /** Assigning adds the key, keeps every key already there, and never reorders them. */
  lemma {:induction false} PutKeys<V>(d: Dict<V>, k: string, v: V)
    ensures Keys(Put(d, k, v)) == Keys(d) + {k}
    ensures |Put(d, k, v)| == if k in Keys(d) then |d| else |d| + 1
    ensures k !in Keys(d) ==> Put(d, k, v) == d + [(k, v)]
    ensures forall i | 0 <= i < |d| :: Put(d, k, v)[i].0 == d[i].0
  {
    if d != [] && d[0].0 != k {
      PutKeys(d[1..], k, v);
      var r := Put(d, k, v);
      assert r == [d[0]] + Put(d[1..], k, v);
      forall i | 0 <= i < |d| ensures r[i].0 == d[i].0 {
        if i > 0 {
          assert r[i] == Put(d[1..], k, v)[i - 1];
        }
      }
      if k !in Keys(d) {
        assert d == [d[0]] + d[1..];
      }
    }
  }

  /** Entries under other keys keep their values. */
  lemma {:induction false} PutOthers<V>(d: Dict<V>, k: string, v: V, i: nat)
    requires i < |d| && d[i].0 != k
    ensures i < |Put(d, k, v)| && Put(d, k, v)[i] == d[i]
  {
    if d[0].0 != k && i > 0 {
      PutOthers(d[1..], k, v, i - 1);
    }
  }

  /** Assigning keeps a dict a dict. */
  lemma {:induction false} PutDistinct<V>(d: Dict<V>, k: string, v: V)
    requires DistinctKeys(d)
    ensures DistinctKeys(Put(d, k, v))
  {
    if d != [] && d[0].0 != k {
      PutDistinct(d[1..], k, v);
      PutKeys(d[1..], k, v);
      var r := Put(d, k, v);
      assert r[1..] == Put(d[1..], k, v);
    } else if d != [] {
      assert Put(d, k, v)[1..] == d[1..];
    }
  }

  /** After `d[k] = v`, looking up `k` gives `v` and every other key is as before. */
  lemma {:induction false} PutGet<V>(d: Dict<V>, k: string, v: V)
    ensures Get(Put(d, k, v), k) == Some(v)
    ensures forall k' | k' != k :: Get(Put(d, k, v), k') == Get(d, k')
  {
    if d != [] && d[0].0 != k {
      PutGet(d[1..], k, v);
      assert Put(d, k, v)[1..] == Put(d[1..], k, v);
    } else if d != [] {
      assert Put(d, k, v)[1..] == d[1..];
    }
  }

  /** Every entry after `d[k] = v` is either an entry of `d` or the new one. */
  lemma {:induction false} PutEntries<V>(d: Dict<V>, k: string, v: V)
    ensures forall e | e in Put(d, k, v) :: e in d || e == (k, v)
  {
    if d != [] && d[0].0 != k {
      PutEntries(d[1..], k, v);
      assert Put(d, k, v) == [d[0]] + Put(d[1..], k, v);
      forall e | e in Put(d, k, v) ensures e in d || e == (k, v) {
        if e != d[0] {
          assert e in Put(d[1..], k, v);
        }
      }
    } else if d != [] {
      forall e | e in Put(d, k, v) ensures e in d || e == (k, v) {
        if e != (k, v) {
          assert e in d[1..];
        }
      }
    }
  }

  /** Storing the value a key already has changes nothing. */
  lemma {:induction false} PutSame<V>(d: Dict<V>, k: string, v: V)
    requires Get(d, k) == Some(v)
    ensures Put(d, k, v) == d
  {
    if d[0].0 != k {
      PutSame(d[1..], k, v);
    }
  }

  /** Assigning the same value twice is the same as assigning it once. */
  lemma {:induction false} PutTwice<V>(d: Dict<V>, k: string, v: V)
    ensures Put(Put(d, k, v), k, v) == Put(d, k, v)
  {
    if d != [] && d[0].0 != k {
      PutTwice(d[1..], k, v);
      assert Put(d, k, v)[1..] == Put(d[1..], k, v);
    } else if d != [] {
      assert Put(d, k, v)[1..] == d[1..];
    }
  }

  /** Two lists carrying the same keys in the same order have the same key set, and one is a dict exactly when the other is. */
  lemma {:induction false} SameKeysDistinct<V, W>(d: Dict<V>, e: Dict<W>)
    requires |d| == |e| && forall i | 0 <= i < |d| :: d[i].0 == e[i].0
    ensures Keys(d) == Keys(e)
    ensures DistinctKeys(d) <==> DistinctKeys(e)
  {
    if d != [] {
      SameKeysDistinct(d[1..], e[1..]);
    }
  }

  /** An entry inserted anywhere under another key does not change what `get` finds. */
  lemma {:induction false} GetInsertOther<V>(a: Dict<V>, k: string, v: V, b: Dict<V>, key: string)
    requires k != key
    ensures Get(a + [(k, v)] + b, key) == Get(a + b, key)
  {
    if a == [] {
      assert a + [(k, v)] + b == [(k, v)] + b;
      assert ([(k, v)] + b)[1..] == b;
      assert a + b == b;
    } else {
      assert (a + [(k, v)] + b)[1..] == a[1..] + [(k, v)] + b;
      assert (a + b)[1..] == a[1..] + b;
      GetInsertOther(a[1..], k, v, b, key);
    }
  }
}
