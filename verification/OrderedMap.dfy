/** The JavaScript `Map` (and plain object with string keys): entries in insertion order.
    Setting a present key keeps its position, setting a new key appends. */
module OrderedMap {
  datatype Option<+T> = None | Some(value: T)

  datatype Entry<+V> = Entry(key: string, value: V)

  function Find<V>(m: seq<Entry<V>>, key: string): Option<V> {
    if m == [] then None
    else if m[0].key == key then Some(m[0].value)
    else Find(m[1..], key)
  }

  predicate Has<V>(m: seq<Entry<V>>, key: string) {
    Find(m, key).Some?
  }

  function Put<V>(m: seq<Entry<V>>, key: string, value: V): seq<Entry<V>> {
    if m == [] then [Entry(key, value)]
    else if m[0].key == key then [Entry(key, value)] + m[1..]
    else [m[0]] + Put(m[1..], key, value)
  }

  function Remove<V>(m: seq<Entry<V>>, key: string): seq<Entry<V>> {
    if m == [] then []
    else if m[0].key == key then Remove(m[1..], key)
    else [m[0]] + Remove(m[1..], key)
  }

  function Values<V>(m: seq<Entry<V>>): (vs: seq<V>)
    ensures |vs| == |m|
  {
    if m == [] then [] else [m[0].value] + Values(m[1..])
  }

  /** One entry per key. */
  predicate Distinct<V>(m: seq<Entry<V>>) {
    m == [] || (!Has(m[1..], m[0].key) && Distinct(m[1..]))
  }

  lemma {:induction false} FindPut<V>(m: seq<Entry<V>>, key: string, value: V, other: string)
    ensures Find(Put(m, key, value), other) == if other == key then Some(value) else Find(m, other)
  {
    if m != [] {
      FindPut(m[1..], key, value, other);
    }
  }

  lemma {:induction false} FindRemove<V>(m: seq<Entry<V>>, key: string, other: string)
    ensures Find(Remove(m, key), other) == if other == key then None else Find(m, other)
  {
    if m != [] {
      FindRemove(m[1..], key, other);
    }
  }

  lemma {:induction false} DistinctPut<V>(m: seq<Entry<V>>, key: string, value: V)
    requires Distinct(m)
    ensures Distinct(Put(m, key, value))
  {
    if m != [] && m[0].key != key {
      DistinctPut(m[1..], key, value);
      FindPut(m[1..], key, value, m[0].key);
    }
  }

  lemma {:induction false} DistinctRemove<V>(m: seq<Entry<V>>, key: string)
    requires Distinct(m)
    ensures Distinct(Remove(m, key))
  {
    if m != [] {
      DistinctRemove(m[1..], key);
      FindRemove(m[1..], key, m[0].key);
    }
  }

  lemma {:induction false} PutAppends<V>(m: seq<Entry<V>>, key: string, value: V)
    requires !Has(m, key)
    ensures Put(m, key, value) == m + [Entry(key, value)]
  {
    if m != [] {
      PutAppends(m[1..], key, value);
    }
  }

  lemma {:induction false} RemoveAbsent<V>(m: seq<Entry<V>>, key: string)
    requires !Has(m, key)
    ensures Remove(m, key) == m
  {
    if m != [] {
      RemoveAbsent(m[1..], key);
    }
  }

  lemma {:induction false} RemovePut<V>(m: seq<Entry<V>>, key: string, value: V)
    ensures Remove(Put(m, key, value), key) == Remove(m, key)
  {
    if m != [] {
      RemovePut(m[1..], key, value);
    }
  }

  lemma {:induction false} RemovePutOther<V>(m: seq<Entry<V>>, key: string, value: V, other: string)
    requires key != other
    ensures Remove(Put(m, key, value), other) == Put(Remove(m, other), key, value)
  {
    if m != [] {
      RemovePutOther(m[1..], key, value, other);
    }
  }

  lemma {:induction false} RemoveCommutes<V>(m: seq<Entry<V>>, a: string, b: string)
    ensures Remove(Remove(m, a), b) == Remove(Remove(m, b), a)
  {
    if m != [] {
      RemoveCommutes(m[1..], a, b);
    }
  }

  lemma {:induction false} PutPut<V>(m: seq<Entry<V>>, key: string, first: V, second: V)
    ensures Put(Put(m, key, first), key, second) == Put(m, key, second)
  {
    if m != [] && m[0].key != key {
      PutPut(m[1..], key, first, second);
    }
  }

  /** Setting a key to the value it has changes nothing. */
  lemma {:induction false} PutSame<V>(m: seq<Entry<V>>, key: string, value: V)
    requires Find(m, key) == Some(value)
    ensures Put(m, key, value) == m
  {
    assert m == [m[0]] + m[1..];
    if m[0].key == key {
      assert m[0] == Entry(key, value);
      assert Put(m, key, value) == [m[0]] + m[1..];
    } else {
      PutSame(m[1..], key, value);
      assert Put(m, key, value) == [m[0]] + Put(m[1..], key, value);
    }
  }

  lemma {:induction false} HasAppend<V>(a: seq<Entry<V>>, b: seq<Entry<V>>, key: string)
    ensures Has(a + b, key) == (Has(a, key) || Has(b, key))
  {
    if a == [] {
      assert a + b == b;
    } else {
      assert (a + b)[1..] == a[1..] + b;
      HasAppend(a[1..], b, key);
    }
  }

  lemma {:induction false} DistinctAppend<V>(a: seq<Entry<V>>, b: seq<Entry<V>>)
    requires b != [] && Distinct(a + b)
    ensures !Has(a, b[0].key)
  {
    if a != [] {
      assert (a + b)[1..] == a[1..] + b;
      DistinctAppend(a[1..], b);
      HasAppend(a[1..], b, a[0].key);
    }
  }

  lemma Associative<T>(a: seq<T>, b: seq<T>, c: seq<T>)
    ensures a + (b + c) == (a + b) + c
  {
  }
}
