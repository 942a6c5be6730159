/**
 * A JavaScript `Map<number, V>`: a finite map together with the order in
 * which its keys were first set. `set` on a key already present keeps that
 * key's place; `set` on a new key puts it last; `delete` takes it out.
 * `values()` yields the entries in that order.
 */
module JsMap {
  import opened Wrappers

  datatype Table<V> = Table(rows: map<int, V>, keys: seq<int>)
  {
    /** The order lists every key exactly once. */
    ghost predicate Valid() {
      && Distinct(keys)
      && (forall k :: k in rows <==> k in keys)
    }

    /** `map.get(k)`. */
    function Get(k: int): (r: Option<V>)
      ensures r.Some? <==> k in rows
      ensures r.Some? ==> r.value == rows[k]
    {
      if k in rows then Some(rows[k]) else None
    }

    /** `map.set(k, v)`. */
    function Set(k: int, v: V): (r: Table<V>)
      ensures r.rows == rows[k := v]
      ensures Valid() ==> r.Valid()
      ensures k in rows ==> r.keys == keys
      ensures k !in rows ==> r.keys == keys + [k]
    {
      Table(rows[k := v], if k in rows then keys else keys + [k])
    }

    /** `map.delete(k)`, without its boolean result (that is `k in rows`). */
    function Delete(k: int): (r: Table<V>)
      ensures r.rows == rows - {k}
      ensures Valid() ==> r.Valid()
    {
      Table(rows - {k}, Without(keys, k))
    }

    /** `Array.from(map.values())`: the entries in key order. */
    function Values(): (r: seq<V>)
      requires Valid()
      ensures |r| == |keys|
      ensures forall i :: 0 <= i < |keys| ==> keys[i] in rows && r[i] == rows[keys[i]]
    {
      assert forall i :: 0 <= i < |keys| ==> keys[i] in keys;
      seq(|keys|, i requires 0 <= i < |keys| => rows[keys[i]])
    }

    /** `map.size`. */
    function Size(): nat {
      |keys|
    }
  }

  /** No key appears twice. */
  ghost predicate Distinct(s: seq<int>) {
    forall i, j :: 0 <= i < j < |s| ==> s[i] != s[j]
  }

  /** Keys in ascending order, as a counter that only grows produces them. */
  ghost predicate Increasing(s: seq<int>) {
    forall i, j :: 0 <= i < j < |s| ==> s[i] < s[j]
  }

  /** `s` with every occurrence of `k` taken out, the rest in order. */
  function Without(s: seq<int>, k: int): (r: seq<int>)
    ensures forall x :: x in r <==> x in s && x != k
    ensures |r| <= |s|
    ensures Distinct(s) ==> Distinct(r)
    ensures Increasing(s) ==> Increasing(r)
  {
    if s == [] then []
    else
      var rest := Without(s[1..], k);
      if s[0] == k then rest
      else
        var r := [s[0]] + rest;
        assert Distinct(s) ==> s[0] !in s[1..] && Distinct(r) by {
          if Distinct(s) {
            assert forall j :: 1 <= j < |s| ==> s[0] != s[j];
            assert s[0] !in rest;
          }
        }
        assert Increasing(s) ==> Increasing(r) by {
          if Increasing(s) {
            forall i | 0 <= i < |rest| ensures s[0] < rest[i] {
              assert rest[i] in s[1..];
              var j :| 0 <= j < |s[1..]| && s[1..][j] == rest[i];
              assert s[j + 1] == rest[i];
            }
          }
        }
        r
  }

  /** A key order without repeats has as many keys as the map has entries. */
  lemma {:induction false} SizeIsEntryCount<V>(t: Table<V>)
    requires t.Valid()
    ensures t.Size() == |t.rows|
  {
    DistinctCardinality(t.keys);
    assert t.rows.Keys == set x | x in t.keys;
  }

  lemma {:induction false} DistinctCardinality(s: seq<int>)
    requires Distinct(s)
    ensures |set x | x in s| == |s|
  {
    if s != [] {
      var init := s[..|s| - 1];
      assert Distinct(init);
      DistinctCardinality(init);
      assert (set x | x in s) == (set x | x in init) + {s[|s| - 1]};
      assert s[|s| - 1] !in (set x | x in init);
    }
  }

  /** The keys of `s`'s elements, read through `key`, ascend strictly. */
  ghost predicate IncreasingBy<X>(s: seq<X>, key: X -> int) {
    forall i, j :: 0 <= i < j < |s| ==> key(s[i]) < key(s[j])
  }

  /**
   * A table filled by a counter: keys ascend in insertion order, each row's
   * own id (read through `id`) is its key, and every key lies in [1, next).
   */
  ghost predicate Keyed<V>(t: Table<V>, next: int, id: V -> int) {
    && t.Valid()
    && Increasing(t.keys)
    && 1 <= next
    && (forall k :: k in t.rows ==> 1 <= k < next && id(t.rows[k]) == k)
  }

  /** Storing a row under the counter's value and bumping the counter keeps the table keyed. */
  lemma KeyedInsert<V>(t: Table<V>, next: int, id: V -> int, v: V)
    requires Keyed(t, next, id) && id(v) == next
    ensures next !in t.rows
    ensures forall k :: k in t.rows ==> k < next
    ensures Keyed(t.Set(next, v), next + 1, id)
  {
    var r := t.Set(next, v);
    assert forall i :: 0 <= i < |t.keys| ==> t.keys[i] in t.keys;
    assert r.keys == t.keys + [next];
    forall i, j | 0 <= i < j < |r.keys| ensures r.keys[i] < r.keys[j] {
      assert r.keys[i] == t.keys[i];
      if j == |t.keys| {
        assert r.keys[j] == next;
        assert t.keys[i] in t.keys;
        assert t.keys[i] in t.rows;
      } else {
        assert r.keys[j] == t.keys[j];
      }
    }
  }

  /** Overwriting a present row with one carrying the same id keeps the table keyed. */
  lemma KeyedReplace<V>(t: Table<V>, next: int, id: V -> int, k: int, v: V)
    requires Keyed(t, next, id) && k in t.rows && id(v) == k
    ensures Keyed(t.Set(k, v), next, id)
  {
  }

  /** Deleting a row keeps the table keyed. */
  lemma KeyedDelete<V>(t: Table<V>, next: int, id: V -> int, k: int)
    requires Keyed(t, next, id)
    ensures Keyed(t.Delete(k), next, id)
  {
  }

  /**
   * `values()` of a keyed table: exactly its rows, each once, in ascending
   * id order.
   */
  lemma {:induction false} KeyedValues<V>(t: Table<V>, next: int, id: V -> int)
    requires Keyed(t, next, id)
    ensures forall v :: v in t.Values() <==> id(v) in t.rows && t.rows[id(v)] == v
    ensures IncreasingBy(t.Values(), id)
  {
    var vs := t.Values();
    forall v | v in vs ensures id(v) in t.rows && t.rows[id(v)] == v {
      var i :| 0 <= i < |vs| && vs[i] == v;
      assert t.keys[i] in t.rows;
    }
    forall v | id(v) in t.rows && t.rows[id(v)] == v ensures v in vs {
      var i :| 0 <= i < |t.keys| && t.keys[i] == id(v);
      assert vs[i] == v;
    }
  }
}
