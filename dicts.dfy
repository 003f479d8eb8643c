/** Python dictionaries with string keys. A dict remembers the order in
    which its keys were first inserted, so it is modelled as that key order
    plus a map. A `defaultdict(list)` whose lists are only ever appended to is
    an `ODict<seq<V>>` updated by `Append`. */
module Dicts {
  import opened Sorting

  datatype ODict<V> = ODict(keys: seq<string>, vals: map<string, V>)

  /** The key order lists each key of the map exactly once. */
  ghost predicate Valid<V>(d: ODict<V>) {
    Distinct(d.keys) && forall k :: k in d.vals <==> k in d.keys
  }

  function Empty<V>(): (r: ODict<V>)
    ensures Valid(r)
  {
    ODict([], map[])
  }

  /** `d[k] = v` */
  function Put<V>(d: ODict<V>, k: string, v: V): (r: ODict<V>)
    ensures Valid(d) ==> Valid(r)
    ensures r.vals == d.vals[k := v]
    ensures r.keys == if k in d.vals then d.keys else d.keys + [k]
  {
    if k in d.vals then ODict(d.keys, d.vals[k := v]) else ODict(d.keys + [k], d.vals[k := v])
  }

  /** `d.get(k, default)` */
  function GetOr<V>(d: ODict<V>, k: string, default: V): V {
    if k in d.vals then d.vals[k] else default
  }

  /** `d.get(k, [])` */
  function Get<V>(d: ODict<seq<V>>, k: string): seq<V> {
    if k in d.vals then d.vals[k] else []
  }

  /** `d[k].append(v)` on a `defaultdict(list)`: a new key goes to the end of
      the key order with the one-element list `[v]`. */
  function Append<V>(d: ODict<seq<V>>, k: string, v: V): (r: ODict<seq<V>>)
    ensures Valid(d) ==> Valid(r)
    ensures Get(r, k) == Get(d, k) + [v]
    ensures forall k' :: k' != k ==> Get(r, k') == Get(d, k')
    ensures r.keys == if k in d.vals then d.keys else d.keys + [k]
  {
    if k in d.vals then ODict(d.keys, d.vals[k := d.vals[k] + [v]])
    else ODict(d.keys + [k], d.vals[k := [v]])
  }

  /** Appending never rewrites an existing entry: every list only grows at its end. */
  lemma AppendGrows<V>(d: ODict<seq<V>>, k: string, v: V)
    ensures forall k' :: Get(d, k') <= Get(Append(d, k, v), k')
  {
    assert Get(d, k) <= Get(d, k) + [v];
  }

  /** `for k, v in pairs: d[k].append(v)` */
  function AppendAll<V>(d: ODict<seq<V>>, pairs: seq<(string, V)>): (r: ODict<seq<V>>)
    ensures Valid(d) ==> Valid(r)
  {
    if pairs == [] then d
    else
      var last := pairs[|pairs| - 1];
      Append(AppendAll(d, pairs[..|pairs| - 1]), last.0, last.1)
  }

  lemma AppendAllSnoc<V>(d: ODict<seq<V>>, pairs: seq<(string, V)>, k: string, v: V)
    ensures AppendAll(d, pairs + [(k, v)]) == Append(AppendAll(d, pairs), k, v)
  {
    assert (pairs + [(k, v)])[..|pairs|] == pairs;
  }

  /** The values paired with key `k`, in order. */
  function Select<V>(pairs: seq<(string, V)>, k: string): seq<V> {
    if pairs == [] then []
    else
      var last := pairs[|pairs| - 1];
      Select(pairs[..|pairs| - 1], k) + (if last.0 == k then [last.1] else [])
  }

  /** Appending a run of pairs appends to each key exactly its own values, in order. */
  lemma {:induction false} AppendAllGet<V>(d: ODict<seq<V>>, pairs: seq<(string, V)>, k: string)
    ensures Get(AppendAll(d, pairs), k) == Get(d, k) + Select(pairs, k)
  {
    if pairs != [] {
      AppendAllGet(d, pairs[..|pairs| - 1], k);
    }
  }

  /** After appending, the keys are the old keys followed by the keys new to
      the dict, in order of first appearance. */
  lemma {:induction false} AppendAllKeys<V>(d: ODict<seq<V>>, pairs: seq<(string, V)>, k: string)
    ensures k in AppendAll(d, pairs).vals <==> k in d.vals || exists i :: 0 <= i < |pairs| && pairs[i].0 == k
    ensures d.keys <= AppendAll(d, pairs).keys
  {
    if pairs != [] {
      var p, x := pairs[..|pairs| - 1], pairs[|pairs| - 1];
      AppendAllKeys(d, p, k);
      var a := AppendAll(d, p);
      assert AppendAll(d, pairs) == Append(a, x.0, x.1);
      assert k in Append(a, x.0, x.1).vals <==> k in a.vals || k == x.0;
      if exists i :: 0 <= i < |p| && p[i].0 == k {
        var i :| 0 <= i < |p| && p[i].0 == k;
        assert pairs[i].0 == k;
      }
      if exists i :: 0 <= i < |pairs| && pairs[i].0 == k {
        var i :| 0 <= i < |pairs| && pairs[i].0 == k;
        if i < |p| {
          assert p[i].0 == k;
        }
      }
    }
  }

  // ---------------------------------------------------------------------------
  // Totals: `sum(len(v) for v in d.values())`
  // ---------------------------------------------------------------------------

  function Len<V>(m: map<string, seq<V>>, k: string): nat {
    if k in m then |m[k]| else 0
  }

  function SumLengths<V>(ks: seq<string>, m: map<string, seq<V>>): nat {
    if ks == [] then 0 else SumLengths(ks[..|ks| - 1], m) + Len(m, ks[|ks| - 1])
  }

  function Total<V>(d: ODict<seq<V>>): nat {
    SumLengths(d.keys, d.vals)
  }

  /** Growing one key's list by one, with the other keys' lengths the same,
      grows the sum by one. */
  lemma {:induction false} SumLengthsBump<V>(ks: seq<string>, m: map<string, seq<V>>, m': map<string, seq<V>>, k: string)
    requires Distinct(ks) && k in ks
    requires Len(m', k) == Len(m, k) + 1
    requires forall k' :: k' in ks && k' != k ==> Len(m', k') == Len(m, k')
    ensures SumLengths(ks, m') == SumLengths(ks, m) + 1
  {
    var p := ks[..|ks| - 1];
    if ks[|ks| - 1] == k {
      assert k !in p;
      SumLengthsSame(p, m, m');
    } else {
      assert k in p;
      SumLengthsBump(p, m, m', k);
    }
  }

  lemma {:induction false} SumLengthsSame<V>(ks: seq<string>, m: map<string, seq<V>>, m': map<string, seq<V>>)
    requires forall k :: k in ks ==> Len(m', k) == Len(m, k)
    ensures SumLengths(ks, m') == SumLengths(ks, m)
  {
    if ks != [] {
      SumLengthsSame(ks[..|ks| - 1], m, m');
    }
  }

  /** Each append adds exactly one entry to the total. */
  lemma TotalAppend<V>(d: ODict<seq<V>>, k: string, v: V)
    requires Valid(d)
    ensures Total(Append(d, k, v)) == Total(d) + 1
  {
    var r := Append(d, k, v);
    if k in d.vals {
      SumLengthsBump(d.keys, d.vals, r.vals, k);
    } else {
      SumLengthsSame(d.keys, d.vals, r.vals);
      assert r.keys[..|r.keys| - 1] == d.keys;
    }
  }

  lemma {:induction false} TotalAppendAll<V>(d: ODict<seq<V>>, pairs: seq<(string, V)>)
    requires Valid(d)
    ensures Total(AppendAll(d, pairs)) == Total(d) + |pairs|
  {
    if pairs != [] {
      var p := pairs[..|pairs| - 1];
      TotalAppendAll(d, p);
      TotalAppend(AppendAll(d, p), pairs[|pairs| - 1].0, pairs[|pairs| - 1].1);
    }
  }

  /** A dict all of whose lists are non-empty has at least as many entries as keys. */
  lemma {:induction false} SumLengthsAtLeastKeys<V>(ks: seq<string>, m: map<string, seq<V>>)
    requires forall k :: k in ks ==> Len(m, k) >= 1
    ensures SumLengths(ks, m) >= |ks|
  {
    if ks != [] {
      SumLengthsAtLeastKeys(ks[..|ks| - 1], m);
    }
  }

  // ---------------------------------------------------------------------------
  // Items: `for k, vs in d.items(): for v in vs: ...`
  // ---------------------------------------------------------------------------

  function Pairs<V>(k: string, vs: seq<V>): (r: seq<(string, V)>)
    ensures |r| == |vs|
    ensures forall i :: 0 <= i < |vs| ==> r[i] == (k, vs[i])
  {
    seq(|vs|, i requires 0 <= i < |vs| => (k, vs[i]))
  }

  lemma PairsSnoc<V>(k: string, vs: seq<V>, j: nat)
    requires j < |vs|
    ensures Pairs(k, vs[..j + 1]) == Pairs(k, vs[..j]) + [(k, vs[j])]
  {
  }

  lemma ItemsOfSnoc<V>(ks: seq<string>, d: ODict<seq<V>>, i: nat)
    requires i < |ks|
    ensures ItemsOf(ks[..i + 1], d) == ItemsOf(ks[..i], d) + Pairs(ks[i], Get(d, ks[i]))
  {
    assert ks[..i + 1][..i] == ks[..i];
  }

  function ItemsOf<V>(ks: seq<string>, d: ODict<seq<V>>): seq<(string, V)> {
    if ks == [] then []
    else ItemsOf(ks[..|ks| - 1], d) + Pairs(ks[|ks| - 1], Get(d, ks[|ks| - 1]))
  }

  /** Every (key, value) pair of the dict, keys in insertion order. */
  function Items<V>(d: ODict<seq<V>>): seq<(string, V)> {
    ItemsOf(d.keys, d)
  }

  lemma {:induction false} ItemsOfLength<V>(ks: seq<string>, d: ODict<seq<V>>)
    ensures |ItemsOf(ks, d)| == SumLengths(ks, d.vals)
  {
    if ks != [] {
      ItemsOfLength(ks[..|ks| - 1], d);
    }
  }

  /** The pairs of `Items` are exactly the stored (key, value) entries. */
  lemma {:induction false} ItemsOfMembers<V>(ks: seq<string>, d: ODict<seq<V>>, k: string, v: V)
    ensures (k, v) in ItemsOf(ks, d) <==> k in ks && v in Get(d, k)
  {
    if ks != [] {
      var p, last := ks[..|ks| - 1], ks[|ks| - 1];
      ItemsOfMembers(p, d, k, v);
      var tail := Pairs(last, Get(d, last));
      assert ItemsOf(ks, d) == ItemsOf(p, d) + tail;
      assert (k, v) in tail <==> k == last && v in Get(d, last) by {
        if (k, v) in tail {
          var i :| 0 <= i < |tail| && tail[i] == (k, v);
        }
        if k == last && v in Get(d, last) {
          var i :| 0 <= i < |Get(d, last)| && Get(d, last)[i] == v;
          assert tail[i] == (k, v);
        }
      }
      assert k in ks <==> k in p || k == last by { assert ks == p + [last]; }
    }
  }

  /** A value is selected for a key exactly when it is paired with that key. */
  lemma {:induction false} SelectMembers<V>(pairs: seq<(string, V)>, k: string, v: V)
    ensures v in Select(pairs, k) <==> (k, v) in pairs
  {
    if pairs != [] {
      var p := pairs[..|pairs| - 1];
      SelectMembers(p, k, v);
      assert pairs == p + [pairs[|pairs| - 1]];
    }
  }

  /** Selecting from two runs of pairs selects from each in turn. */
  lemma {:induction false} SelectAppend<V>(a: seq<(string, V)>, b: seq<(string, V)>, k: string)
    ensures Select(a + b, k) == Select(a, k) + Select(b, k)
  {
    if b == [] {
      assert a + b == a;
    } else {
      var p := b[..|b| - 1];
      SelectAppend(a, p, k);
      assert (a + b)[..|a + b| - 1] == a + p;
    }
  }

  lemma {:induction false} SelectPairs<V>(k': string, vs: seq<V>, k: string)
    ensures Select(Pairs(k', vs), k) == if k' == k then vs else []
  {
    if vs != [] {
      var p := vs[..|vs| - 1];
      SelectPairs(k', p, k);
      assert Pairs(k', vs)[..|vs| - 1] == Pairs(k', p);
    }
  }

  /** A key that is not among the keys has nothing selected for it. */
  lemma {:induction false} SelectItemsOfAbsent<V>(ks: seq<string>, d: ODict<seq<V>>, k: string)
    requires k !in ks
    ensures Select(ItemsOf(ks, d), k) == []
  {
    if ks != [] {
      var p, last := ks[..|ks| - 1], ks[|ks| - 1];
      assert k !in p by {
        assert ks == p + [last];
      }
      SelectItemsOfAbsent(p, d, k);
      SelectAppend(ItemsOf(p, d), Pairs(last, Get(d, last)), k);
      SelectPairs(last, Get(d, last), k);
    }
  }

  /** The pairs of one more key select that key's list for it and nothing else. */
  lemma SelectItemsOfLast<V>(ks: seq<string>, d: ODict<seq<V>>, k: string)
    requires ks != []
    ensures Select(ItemsOf(ks, d), k) ==
            Select(ItemsOf(ks[..|ks| - 1], d), k) + (if k == ks[|ks| - 1] then Get(d, k) else [])
  {
    var last := ks[|ks| - 1];
    SelectAppend(ItemsOf(ks[..|ks| - 1], d), Pairs(last, Get(d, last)), k);
    SelectPairs(last, Get(d, last), k);
  }

  /** Dropping the last of distinct keys leaves distinct keys without it. */
  lemma DistinctInit<T>(s: seq<T>)
    requires s != [] && Distinct(s)
    ensures Distinct(s[..|s| - 1]) && s[|s| - 1] !in s[..|s| - 1]
  {
    var p := s[..|s| - 1];
    forall i | 0 <= i < |p| ensures p[i] != s[|s| - 1] {
      assert p[i] == s[i];
    }
  }

  /** Over distinct keys, the values `Items` pairs with a present key are
      that key's list. */
  lemma {:induction false} SelectItemsOfPresent<V>(ks: seq<string>, d: ODict<seq<V>>, k: string)
    requires Distinct(ks) && k in ks
    ensures Select(ItemsOf(ks, d), k) == Get(d, k)
  {
    var p, last := ks[..|ks| - 1], ks[|ks| - 1];
    if k == last {
      SelectItemsOfLastKey(ks, d);
    } else {
      DistinctInit(ks);
      SelectItemsOfLast(ks, d, k);
      assert k in p by {
        assert ks == p + [last];
      }
      SelectItemsOfPresent(p, d, k);
      assert Select(ItemsOf(ks, d), k) == Get(d, k) + [];
    }
  }

  lemma SelectItemsOfLastKey<V>(ks: seq<string>, d: ODict<seq<V>>)
    requires ks != [] && Distinct(ks)
    ensures Select(ItemsOf(ks, d), ks[|ks| - 1]) == Get(d, ks[|ks| - 1])
  {
    var k := ks[|ks| - 1];
    DistinctInit(ks);
    SelectItemsOfLast(ks, d, k);
    SelectItemsOfAbsent(ks[..|ks| - 1], d, k);
    assert Select(ItemsOf(ks, d), k) == [] + Get(d, k);
  }

  /** Over distinct keys, the values `Items` pairs with a key are that key's list. */
  lemma SelectItemsOf<V>(ks: seq<string>, d: ODict<seq<V>>, k: string)
    requires Distinct(ks)
    ensures Select(ItemsOf(ks, d), k) == if k in ks then Get(d, k) else []
  {
    if k in ks {
      SelectItemsOfPresent(ks, d, k);
    } else {
      SelectItemsOfAbsent(ks, d, k);
    }
  }

  lemma SelectItems<V>(d: ODict<seq<V>>, k: string)
    requires Valid(d)
    ensures Select(Items(d), k) == Get(d, k)
  {
    SelectItemsOf(d.keys, d, k);
  }

  // ---------------------------------------------------------------------------
  // Loops over a dict
  // ---------------------------------------------------------------------------

  /** The accumulator after `for e in es: acc = step(acc, e)`. */
  function FoldLeft<A, E>(a: A, es: seq<E>, step: (A, E) -> A): A {
    if es == [] then a else step(FoldLeft(a, es[..|es| - 1], step), es[|es| - 1])
  }

  lemma FoldLeftSnoc<A, E>(a: A, es: seq<E>, e: E, step: (A, E) -> A)
    ensures FoldLeft(a, es + [e], step) == step(FoldLeft(a, es, step), e)
  {
    assert (es + [e])[..|es|] == es;
  }

  /** `for k, vs in d.items(): for v in vs: acc = step(acc, (k, v))` */
  method FoldItems<A, V>(a: A, d: ODict<seq<V>>, step: (A, (string, V)) -> A) returns (r: A)
    ensures r == FoldLeft(a, Items(d), step)
  {
    r := a;
    for i := 0 to |d.keys|
      invariant r == FoldLeft(a, ItemsOf(d.keys[..i], d), step)
    {
      var k := d.keys[i];
      var vs := Get(d, k);
      ghost var done := ItemsOf(d.keys[..i], d);
      assert done + Pairs(k, vs[..0]) == done;
      for j := 0 to |vs|
        invariant r == FoldLeft(a, done + Pairs(k, vs[..j]), step)
      {
        PairsSnoc(k, vs, j);
        assert done + Pairs(k, vs[..j + 1]) == (done + Pairs(k, vs[..j])) + [(k, vs[j])];
        FoldLeftSnoc(a, done + Pairs(k, vs[..j]), (k, vs[j]), step);
        r := step(r, (k, vs[j]));
      }
      assert vs[..|vs|] == vs;
      ItemsOfSnoc(d.keys, d, i);
    }
    assert d.keys[..|d.keys|] == d.keys;
  }

  /** `{k: f(v) for k, v in d.items()}` */
  function MapValues<V, W>(d: ODict<V>, f: V -> W): ODict<W> {
    ODict(d.keys, map k | k in d.vals :: f(d.vals[k]))
  }

  /** The mapped dict has the same keys in the same order, each with its
      value mapped. */
  lemma MapValuesFacts<V, W>(d: ODict<V>, f: V -> W)
    ensures Valid(d) ==> Valid(MapValues(d, f))
    ensures forall k :: k in MapValues(d, f).vals <==> k in d.vals
    ensures forall k :: k in d.vals ==> MapValues(d, f).vals[k] == f(d.vals[k])
  {
  }

  /** The loop that builds `MapValues` one key at a time. */
  method MapValuesLoop<V, W>(d: ODict<V>, f: V -> W) returns (r: ODict<W>)
    requires Valid(d)
    ensures r == MapValues(d, f)
  {
    r := Empty();
    for i := 0 to |d.keys|
      invariant r.keys == d.keys[..i]
      invariant r.vals == map k | k in d.keys[..i] :: f(d.vals[k])
    {
      var k := d.keys[i];
      assert k !in d.keys[..i];
      assert d.keys[..i + 1] == d.keys[..i] + [k];
      r := Put(r, k, f(d.vals[k]));
    }
    assert d.keys[..|d.keys|] == d.keys;
    assert r.vals == MapValues(d, f).vals;
  }
}
