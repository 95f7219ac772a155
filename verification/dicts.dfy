/**
 * Python dictionaries as the add-in uses them: items kept in insertion
 * order, `d[k] = v` replacing a present key's value where it stands and
 * appending a new key, `del d[k]` removing the key. The order matters
 * because the tick fires assigned functions in dictionary order and the
 * settings file is written in it.
 */
module Dicts {
  import opened Optional

  /** The items of a dictionary, in insertion order. */
  type Dict<K, V> = seq<(K, V)>

  predicate DistinctKeys<K(==), V>(d: Dict<K, V>) {
    forall i, j :: 0 <= i < j < |d| ==> d[i].0 != d[j].0
  }

  function Keys<K, V>(d: Dict<K, V>): set<K> {
    set i | 0 <= i < |d| :: d[i].0
  }

  /** `d.get(k)`: the value of the first item with key `k`. */
  function Get<K(==), V>(d: Dict<K, V>, k: K): (r: Option<V>)
    ensures r.Some? <==> k in Keys(d)
    ensures r.Some? ==> exists i :: 0 <= i < |d| && d[i] == (k, r.value)
  {
    if |d| == 0 then None
    else if d[0].0 == k then Some(d[0].1)
    else
      assert Keys(d) == {d[0].0} + Keys(d[1..]) by { KeysOfTail(d); }
      var r := Get(d[1..], k);
      assert r.Some? ==> exists i :: 0 <= i < |d| && d[i] == (k, r.value) by {
        if r.Some? {
          var i :| 0 <= i < |d[1..]| && d[1..][i] == (k, r.value);
          assert d[i + 1] == d[1..][i];
        }
      }
      r
  }

  function Values<K, V>(d: Dict<K, V>): set<V> {
    set i | 0 <= i < |d| :: d[i].1
  }

  /** `d[k] = v`. */
  function Put<K(==), V>(d: Dict<K, V>, k: K, v: V): Dict<K, V> {
    if |d| == 0 then [(k, v)]
    else if d[0].0 == k then [(k, v)] + d[1..]
    else [d[0]] + Put(d[1..], k, v)
  }

  /** `del d[k]` (for a key that is present; an absent key changes nothing). */
  function Delete<K(==), V>(d: Dict<K, V>, k: K): Dict<K, V> {
    if |d| == 0 then []
    else if d[0].0 == k then Delete(d[1..], k)
    else [d[0]] + Delete(d[1..], k)
  }

  lemma KeysOfTail<K, V>(d: Dict<K, V>)
    requires |d| > 0
    ensures Keys(d) == {d[0].0} + Keys(d[1..])
  {
    forall k | k in Keys(d) ensures k in {d[0].0} + Keys(d[1..]) {
      var i :| 0 <= i < |d| && d[i].0 == k;
      if i > 0 { assert d[1..][i - 1] == d[i]; }
    }
    forall k | k in Keys(d[1..]) ensures k in Keys(d) {
      var i :| 0 <= i < |d[1..]| && d[1..][i].0 == k;
      assert d[i + 1] == d[1..][i];
    }
  }

  /**
   * After `d[k] = v`, `k` reads back as `v` and every other key reads as
   * before.
   */
  lemma {:induction false} PutGet<K, V>(d: Dict<K, V>, k: K, v: V, other: K)
    ensures Get(Put(d, k, v), k) == Some(v)
    ensures other != k ==> Get(Put(d, k, v), other) == Get(d, other)
  {
    if |d| > 0 && d[0].0 != k {
      PutGet(d[1..], k, v, other);
      assert Put(d, k, v)[1..] == Put(d[1..], k, v);
    }
  }

  /** `d[k] = v` adds `k` to the keys and no other. */
  lemma {:induction false} PutKeys<K, V>(d: Dict<K, V>, k: K, v: V)
    ensures Keys(Put(d, k, v)) == Keys(d) + {k}
  {
    if |d| > 0 {
      var r := Put(d, k, v);
      KeysOfTail(d);
      KeysOfTail(r);
      if d[0].0 != k {
        PutKeys(d[1..], k, v);
        assert r[0] == d[0] && r[1..] == Put(d[1..], k, v);
      } else {
        assert r[0].0 == k && r[1..] == d[1..];
      }
    } else {
      var r := Put(d, k, v);
      KeysOfTail(r);
      assert r[0].0 == k && Keys(r[1..]) == {};
    }
  }

  /**
   * Setting a key already present keeps every item where it was: the same
   * keys in the same order, only that key's value changed.
   */
  lemma {:induction false} PutPresentKeepsOrder<K, V>(d: Dict<K, V>, k: K, v: V)
    requires k in Keys(d)
    ensures |Put(d, k, v)| == |d|
    ensures forall i :: 0 <= i < |d| ==> Put(d, k, v)[i].0 == d[i].0
  {
    KeysOfTail(d);
    if d[0].0 != k {
      PutPresentKeepsOrder(d[1..], k, v);
      var r := Put(d, k, v);
      assert r == [d[0]] + Put(d[1..], k, v);
      forall i | 0 <= i < |d| ensures r[i].0 == d[i].0 {
        if i > 0 { assert r[i] == Put(d[1..], k, v)[i - 1]; }
      }
    }
  }

  /** Setting a new key appends it at the end. */
  lemma {:induction false} PutAbsentAppends<K, V>(d: Dict<K, V>, k: K, v: V)
    requires k !in Keys(d)
    ensures Put(d, k, v) == d + [(k, v)]
  {
    if |d| > 0 {
      KeysOfTail(d);
      PutAbsentAppends(d[1..], k, v);
      assert [d[0]] + (d[1..] + [(k, v)]) == d + [(k, v)];
    }
  }

  /** `d[k] = v` never creates a duplicate key. */
  lemma {:induction false} PutDistinct<K, V>(d: Dict<K, V>, k: K, v: V)
    requires DistinctKeys(d)
    ensures DistinctKeys(Put(d, k, v))
  {
    if |d| > 0 {
      var r := Put(d, k, v);
      assert DistinctKeys(d[1..]) by {
        forall i, j | 0 <= i < j < |d[1..]| ensures d[1..][i].0 != d[1..][j].0 {
          assert d[1..][i] == d[i + 1] && d[1..][j] == d[j + 1];
        }
      }
      KeysOfTail(d);
      if d[0].0 != k {
        PutDistinct(d[1..], k, v);
        PutKeys(d[1..], k, v);
        var t := Put(d[1..], k, v);
        assert r == [d[0]] + t;
        assert d[0].0 !in Keys(d[1..]) by {
          forall i | 0 <= i < |d[1..]| ensures d[1..][i].0 != d[0].0 {
            assert d[1..][i] == d[i + 1];
          }
        }
        forall i, j | 0 <= i < j < |r| ensures r[i].0 != r[j].0 {
          assert r[j] == t[j - 1];
          if i > 0 {
            assert r[i] == t[i - 1];
          } else {
            assert r[j].0 in Keys(t);
          }
        }
      } else {
        forall i, j | 0 <= i < j < |r| ensures r[i].0 != r[j].0 {
          assert r[j] == d[j];
          if i > 0 { assert r[i] == d[i]; }
        }
      }
    }
  }

  /** After `del d[k]`, `k` is gone and every other key reads as before. */
  lemma {:induction false} DeleteGet<K, V>(d: Dict<K, V>, k: K, other: K)
    ensures Get(Delete(d, k), k) == None
    ensures other != k ==> Get(Delete(d, k), other) == Get(d, other)
  {
    if |d| > 0 {
      DeleteGet(d[1..], k, other);
      if d[0].0 != k {
        assert Delete(d, k)[1..] == Delete(d[1..], k);
      }
    }
  }

  /** `del d[k]` removes `k` from the keys and no other. */
  lemma {:induction false} DeleteKeys<K, V>(d: Dict<K, V>, k: K)
    ensures Keys(Delete(d, k)) == Keys(d) - {k}
  {
    if |d| > 0 {
      var r := Delete(d, k);
      KeysOfTail(d);
      DeleteKeys(d[1..], k);
      if d[0].0 != k {
        KeysOfTail(r);
        assert r[1..] == Delete(d[1..], k);
      }
    }
  }

  /** Deleting an absent key changes nothing. */
  lemma {:induction false} DeleteAbsent<K, V>(d: Dict<K, V>, k: K)
    requires k !in Keys(d)
    ensures Delete(d, k) == d
  {
    if |d| > 0 {
      KeysOfTail(d);
      DeleteAbsent(d[1..], k);
    }
  }

  /** `del d[k]` never creates a duplicate key. */
  lemma {:induction false} DeleteDistinct<K, V>(d: Dict<K, V>, k: K)
    requires DistinctKeys(d)
    ensures DistinctKeys(Delete(d, k))
  {
    if |d| > 0 {
      assert DistinctKeys(d[1..]) by {
        forall i, j | 0 <= i < j < |d[1..]| ensures d[1..][i].0 != d[1..][j].0 {
          assert d[1..][i] == d[i + 1] && d[1..][j] == d[j + 1];
        }
      }
      DeleteDistinct(d[1..], k);
      if d[0].0 != k {
        var t := Delete(d[1..], k);
        var r := Delete(d, k);
        assert r == [d[0]] + t;
        DeleteKeys(d[1..], k);
        assert d[0].0 !in Keys(d[1..]) by {
          forall i | 0 <= i < |d[1..]| ensures d[1..][i].0 != d[0].0 {
            assert d[1..][i] == d[i + 1];
          }
        }
        forall i, j | 0 <= i < j < |r| ensures r[i].0 != r[j].0 {
          assert r[j] == t[j - 1];
          if i > 0 {
            assert r[i] == t[i - 1];
          } else {
            assert r[j].0 in Keys(t);
          }
        }
      }
    }
  }

  /** With distinct keys, every item's key reads back as that item's value. */
  lemma {:induction false} GetDistinct<K, V>(d: Dict<K, V>, i: nat)
    requires DistinctKeys(d) && i < |d|
    ensures Get(d, d[i].0) == Some(d[i].1)
  {
    if i > 0 {
      assert d[0].0 != d[i].0;
      assert DistinctKeys(d[1..]) by {
        forall a, b | 0 <= a < b < |d[1..]| ensures d[1..][a].0 != d[1..][b].0 {
          assert d[1..][a] == d[a + 1] && d[1..][b] == d[b + 1];
        }
      }
      GetDistinct(d[1..], i - 1);
      assert d[1..][i - 1] == d[i];
    }
  }

  /** `d[k] = v` brings in the value `v` and no other new value. */
  lemma {:induction false} PutValues<K, V>(d: Dict<K, V>, k: K, v: V)
    ensures Values(Put(d, k, v)) <= Values(d) + {v}
  {
    var r := Put(d, k, v);
    forall w | w in Values(r) ensures w in Values(d) + {v} {
      var i :| 0 <= i < |r| && r[i].1 == w;
      if |d| > 0 && d[0].0 != k && i > 0 {
        PutValues(d[1..], k, v);
        var t := Put(d[1..], k, v);
        assert r[i] == t[i - 1];
        assert w in Values(t);
        if w != v {
          assert w in Values(d[1..]);
          var j :| 0 <= j < |d[1..]| && d[1..][j].1 == w;
          assert d[j + 1] == d[1..][j];
        }
      } else if |d| > 0 && d[0].0 == k && i > 0 {
        assert r[i] == d[i];
      }
    }
  }

  /** `del d[k]` brings in no new value. */
  lemma {:induction false} DeleteValues<K, V>(d: Dict<K, V>, k: K)
    ensures Values(Delete(d, k)) <= Values(d)
  {
    if |d| > 0 {
      DeleteValues(d[1..], k);
      var r := Delete(d, k);
      var t := Delete(d[1..], k);
      forall w | w in Values(r) ensures w in Values(d) {
        var i :| 0 <= i < |r| && r[i].1 == w;
        var u := if d[0].0 == k then i else i - 1;
        if d[0].0 != k && i == 0 {
          assert w == d[0].1;
        } else {
          assert r[i] == t[u];
          assert w in Values(t);
          var j :| 0 <= j < |d[1..]| && d[1..][j].1 == w;
          assert d[j + 1] == d[1..][j];
        }
      }
    }
  }

  /** The tail of a dictionary: fewer keys and values, and none of them the first key. */
  lemma Tail<K, V>(d: Dict<K, V>)
    requires |d| > 0
    ensures Keys(d[1..]) <= Keys(d) && Values(d[1..]) <= Values(d)
    ensures DistinctKeys(d) ==> DistinctKeys(d[1..]) && d[0].0 !in Keys(d[1..])
  {
    forall k | k in Keys(d[1..]) ensures k in Keys(d) {
      var i :| 0 <= i < |d[1..]| && d[1..][i].0 == k;
      assert d[i + 1] == d[1..][i];
    }
    forall w | w in Values(d[1..]) ensures w in Values(d) {
      var i :| 0 <= i < |d[1..]| && d[1..][i].1 == w;
      assert d[i + 1] == d[1..][i];
    }
    if DistinctKeys(d) {
      forall i, j | 0 <= i < j < |d[1..]| ensures d[1..][i].0 != d[1..][j].0 {
        assert d[1..][i] == d[i + 1] && d[1..][j] == d[j + 1];
      }
      forall i | 0 <= i < |d[1..]| ensures d[1..][i].0 != d[0].0 {
        assert d[1..][i] == d[i + 1];
      }
    }
  }

  lemma KeysOfAppend<K, V>(d: Dict<K, V>, item: (K, V))
    ensures Keys(d + [item]) == Keys(d) + {item.0}
  {
    var r := d + [item];
    assert r[|d|] == item;
    forall k | k in Keys(d) ensures k in Keys(r) {
      var i :| 0 <= i < |d| && d[i].0 == k;
      assert r[i] == d[i];
    }
  }
}
