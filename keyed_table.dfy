// A Python dict keyed by strings, as an association list in insertion order.
// Assigning to an existing key keeps its place; a new key goes to the end;
// `del` removes the entry and closes the gap.

module KeyedTable {
  import opened Common

  datatype Entry<V> = Entry(key: string, value: V)

  type Table<V> = seq<Entry<V>>

  function Keys<V>(t: Table<V>): (r: seq<string>)
    ensures |r| == |t|
    ensures forall i :: 0 <= i < |t| ==> r[i] == t[i].key
  {
    if |t| == 0 then [] else [t[0].key] + Keys(t[1..])
  }

  ghost predicate DistinctKeys<V>(t: Table<V>)
  {
    forall i, j :: 0 <= i < j < |t| ==> t[i].key != t[j].key
  }

  /** `d.get(k)`: the value stored under `k`, if any. */
  function Get<V>(t: Table<V>, k: string): (r: Option<V>)
    ensures r.None? <==> k !in Keys(t)
    ensures r.Some? ==> exists i :: 0 <= i < |t| && t[i] == Entry(k, r.value)
  {
    if |t| == 0 then None
    else if t[0].key == k then Some(t[0].value)
    else
      var r := Get(t[1..], k);
      assert r.Some? ==> exists i :: 0 <= i < |t[1..]| && t[1..][i] == Entry(k, r.value);
      r
  }

  /** `d[k] = v`. */
  function Put<V>(t: Table<V>, k: string, v: V): (r: Table<V>)
  {
    if |t| == 0 then [Entry(k, v)]
    else if t[0].key == k then [Entry(k, v)] + t[1..]
    else [t[0]] + Put(t[1..], k, v)
  }

  /** `del d[k]` for a key that is present; an absent key leaves the table as it is. */
  function Remove<V>(t: Table<V>, k: string): (r: Table<V>)
  {
    if |t| == 0 then []
    else if t[0].key == k then t[1..]
    else [t[0]] + Remove(t[1..], k)
  }

  lemma {:induction false} PutGet<V>(t: Table<V>, k: string, v: V)
    ensures Get(Put(t, k, v), k) == Some(v)
  {
    if |t| > 0 && t[0].key != k {
      PutGet(t[1..], k, v);
    }
  }

  /** Every entry after `d[k] = v` is the new one or was there before. */
  lemma {:induction false} PutEntries<V>(t: Table<V>, k: string, v: V, e: Entry<V>)
    requires e in Put(t, k, v)
    ensures e == Entry(k, v) || e in t
  {
    if |t| > 0 && t[0].key != k && e != t[0] {
      PutEntries(t[1..], k, v, e);
    }
  }

  lemma {:induction false} PutOther<V>(t: Table<V>, k: string, v: V, other: string)
    requires other != k
    ensures Get(Put(t, k, v), other) == Get(t, other)
  {
    if |t| > 0 && t[0].key != k {
      PutOther(t[1..], k, v, other);
    }
  }

  /** Overwriting keeps the key order; a new key is appended. */
  lemma {:induction false} PutKeys<V>(t: Table<V>, k: string, v: V)
    ensures Keys(Put(t, k, v)) == if k in Keys(t) then Keys(t) else Keys(t) + [k]
  {
    if |t| > 0 {
      if t[0].key != k {
        PutKeys(t[1..], k, v);
        assert Keys(t) == [t[0].key] + Keys(t[1..]);
      }
    }
  }

  lemma {:induction false} PutDistinct<V>(t: Table<V>, k: string, v: V)
    requires DistinctKeys(t)
    ensures DistinctKeys(Put(t, k, v))
  {
    PutKeys(t, k, v);
    var r := Put(t, k, v);
    var kr := Keys(r);
    var kt := Keys(t);
    assert forall i, j :: 0 <= i < j < |kt| ==> kt[i] != kt[j];
    assert forall i, j :: 0 <= i < j < |r| ==> kr[i] != kr[j];
  }

  lemma {:induction false} RemoveKeys<V>(t: Table<V>, k: string)
    requires DistinctKeys(t)
    ensures k !in Keys(Remove(t, k))
    ensures forall other :: other != k ==> (other in Keys(Remove(t, k)) <==> other in Keys(t))
    ensures |Remove(t, k)| == if k in Keys(t) then |t| - 1 else |t|
    ensures DistinctKeys(Remove(t, k))
  {
    if |t| > 0 {
      assert DistinctKeys(t[1..]) by {
        forall i, j | 0 <= i < j < |t[1..]|
          ensures t[1..][i].key != t[1..][j].key
        {
          assert t[1..][i] == t[i + 1] && t[1..][j] == t[j + 1];
        }
      }
      if t[0].key == k {
        assert k !in Keys(t[1..]);
      } else {
        RemoveKeys(t[1..], k);
        var r := Remove(t, k);
        assert r == [t[0]] + Remove(t[1..], k);
        assert Keys(r) == [t[0].key] + Keys(Remove(t[1..], k));
        assert t[0].key !in Keys(t[1..]);
        forall i, j | 0 <= i < j < |r|
          ensures r[i].key != r[j].key
        {
          if i == 0 {
            assert r[j].key in Keys(Remove(t[1..], k));
          } else {
            assert r[i] == Remove(t[1..], k)[i - 1] && r[j] == Remove(t[1..], k)[j - 1];
          }
        }
      }
    }
  }

  /** After `del d[k]`, `d.get(k)` is None and every other key keeps its value. */
  lemma {:induction false} RemoveGet<V>(t: Table<V>, k: string, other: string)
    requires DistinctKeys(t)
    ensures Get(Remove(t, k), k) == None
    ensures other != k ==> Get(Remove(t, k), other) == Get(t, other)
  {
    RemoveKeys(t, k);
    if |t| > 0 && t[0].key != k {
      assert DistinctKeys(t[1..]) by {
        forall i, j | 0 <= i < j < |t[1..]|
          ensures t[1..][i].key != t[1..][j].key
        {
          assert t[1..][i] == t[i + 1] && t[1..][j] == t[j + 1];
        }
      }
      RemoveGet(t[1..], k, other);
    }
  }
}
