/** A JavaScript `Map<string, V>`, the table type of the in-memory store: the keys in
    insertion order and the value held under each. `set` on a key already present replaces its
    value and leaves the key where it was; `set` on a new key puts it last. */
module Tables {
  import opened Wrappers
  import opened Seqs

  datatype Table<V> = Table(keys: seq<string>, rows: map<string, V>) {

    /** Each key is listed once, and the listed keys are exactly the keys with a value. */
    ghost predicate Valid() {
      && NoDup(keys)
      && forall k :: k in rows <==> k in keys
    }

    /** Every value is stored under the key `idOf` gives it. */
    ghost predicate KeyedBy(idOf: V -> string) {
      Valid() && forall k :: k in rows ==> idOf(rows[k]) == k
    }

    /** `map.get(k)` */
    function Get(k: string): (r: Option<V>)
      ensures r.Some? <==> k in rows
      ensures r.Some? ==> r.value == rows[k]
    {
      if k in rows then Some(rows[k]) else None
    }

    /** `map.set(k, v)` */
    function Set(k: string, v: V): (t: Table<V>)
      requires Valid()
      ensures t.Valid()
      ensures t.Get(k) == Some(v)
      ensures forall k' :: k' != k ==> t.Get(k') == Get(k')
      ensures |t.keys| == if k in rows then |keys| else |keys| + 1
      ensures t.keys[..|keys|] == keys
    {
      if k in rows then Table(keys, rows[k := v]) else Table(keys + [k], rows[k := v])
    }

    /** `Array.from(map.values())`: one value per key, in key order. */
    function Values(): (r: seq<V>)
      requires Valid()
      ensures |r| == |keys|
      ensures forall i :: 0 <= i < |keys| ==> r[i] == rows[keys[i]]
    {
      seq(|keys|, i requires 0 <= i < |keys| => rows[keys[i]])
    }
  }

  /** `new Map()` */
  function Empty<V>(): (t: Table<V>)
    ensures t.Valid() && t.Values() == []
  {
    Table([], map[])
  }

  lemma EmptyKeyedBy<V>(idOf: V -> string)
    ensures Empty<V>().KeyedBy(idOf)
  {
  }

  /** Storing a value under its own key keeps every value under its own key. */
  lemma SetKeyedBy<V>(t: Table<V>, idOf: V -> string, v: V)
    requires t.KeyedBy(idOf)
    ensures t.Set(idOf(v), v).KeyedBy(idOf)
  {
  }

  /** `idOf` gives each value of `vs` the key at the same position of `ks`. */
  ghost predicate KeysOf<V>(ks: seq<string>, vs: seq<V>, idOf: V -> string) {
    |ks| == |vs| && forall i :: 0 <= i < |vs| ==> idOf(vs[i]) == ks[i]
  }

  /** Storing each value under its own key keeps every value under its own key. */
  lemma {:induction false} SetAllKeyedBy<V>(t: Table<V>, ks: seq<string>, vs: seq<V>, idOf: V -> string)
    requires t.KeyedBy(idOf) && KeysOf(ks, vs, idOf)
    ensures SetAll(t, ks, vs).KeyedBy(idOf)
    decreases |ks|
  {
    if ks != [] {
      var n := |ks| - 1;
      SetAllKeyedBy(t, ks[..n], vs[..n], idOf);
      SetKeyedBy(SetAll(t, ks[..n], vs[..n]), idOf, vs[n]);
    }
  }

  /** Values stored under their own keys are enumerated without repetition. */
  lemma KeyedValuesNoDup<V>(t: Table<V>, idOf: V -> string)
    requires t.KeyedBy(idOf)
    ensures NoDup(t.Values())
  {
    forall i, j | 0 <= i < j < |t.keys| ensures t.Values()[i] != t.Values()[j] {
      assert t.keys[i] in t.rows && t.keys[j] in t.rows;
      assert idOf(t.Values()[i]) == t.keys[i] != t.keys[j] == idOf(t.Values()[j]);
    }
  }

  /** Under a table keyed by `idOf`, a stored value sits exactly at the position of its key. */
  lemma KeyedPosition<V>(t: Table<V>, idOf: V -> string, v: V, j: nat)
    requires t.KeyedBy(idOf) && j < |t.keys| && v in t.Values()
    ensures t.keys[j] == idOf(v) <==> t.Values()[j] == v
  {
    var i :| 0 <= i < |t.keys| && t.Values()[i] == v;
    assert t.keys[i] in t.rows && t.keys[j] in t.rows;
    assert idOf(t.Values()[i]) == t.keys[i];
    assert idOf(t.Values()[j]) == t.keys[j];
  }

  /** `map.size` agrees with the number of enumerated keys. */
  lemma {:induction false} SizeIsKeyCount<V>(t: Table<V>)
    requires t.Valid()
    ensures |t.rows| == |t.keys| == |t.Values()|
    decreases |t.keys|
  {
    if t.keys != [] {
      var last := t.keys[|t.keys| - 1];
      var t' := Table(t.keys[..|t.keys| - 1], t.rows - {last});
      assert t.keys == t'.keys + [last];
      assert t'.Valid();
      SizeIsKeyCount(t');
      assert t.rows.Keys == t'.rows.Keys + {last};
    }
  }

  /** A stored value is among the enumerated values, and every enumerated value is stored. */
  lemma ValuesAreRows<V>(t: Table<V>)
    requires t.Valid()
    ensures forall k :: k in t.rows ==> t.rows[k] in t.Values()
    ensures forall v :: v in t.Values() <==> v in t.rows.Values
  {
    forall k | k in t.rows ensures t.rows[k] in t.Values() {
      var i :| 0 <= i < |t.keys| && t.keys[i] == k;
      assert t.Values()[i] == t.rows[k];
    }
    forall v | v in t.Values() ensures v in t.rows.Values {
      var i :| 0 <= i < |t.keys| && t.Values()[i] == v;
      assert t.keys[i] in t.rows;
    }
  }

  /** Overwriting a present key replaces its value in place: the enumeration keeps its order. */
  lemma ValuesSetPresent<V>(t: Table<V>, i: nat, v: V)
    requires t.Valid() && i < |t.keys|
    ensures t.Set(t.keys[i], v).Values() == t.Values()[i := v]
  {
    var t' := t.Set(t.keys[i], v);
    assert t'.keys == t.keys;
    forall j | 0 <= j < |t.keys| ensures t'.Values()[j] == t.Values()[i := v][j] {
      if j != i {
        assert t.keys[j] != t.keys[i];
      }
    }
  }

  /** Storing under a new key appends its value to the enumeration. */
  lemma ValuesSetAbsent<V>(t: Table<V>, k: string, v: V)
    requires t.Valid() && k !in t.rows
    ensures t.Set(k, v).Values() == t.Values() + [v]
  {
    var t' := t.Set(k, v);
    forall j | 0 <= j < |t.keys| ensures t'.Values()[j] == t.Values()[j] {
      assert t.keys[j] in t.rows;
    }
  }

  /** `ks.forEach((k, i) => map.set(k, vs[i]))` as a function of the table it starts from. */
  function SetAll<V>(t: Table<V>, ks: seq<string>, vs: seq<V>): (r: Table<V>)
    requires t.Valid() && |ks| == |vs|
    ensures r.Valid()
    decreases |ks|
  {
    if ks == [] then t
    else SetAll(t, ks[..|ks| - 1], vs[..|vs| - 1]).Set(ks[|ks| - 1], vs[|vs| - 1])
  }

  /** Storing records under fresh, distinct keys appends their keys and their values, in order. */
  lemma {:induction false} SetAllFresh<V>(t: Table<V>, ks: seq<string>, vs: seq<V>)
    requires t.Valid() && |ks| == |vs|
    requires NoDup(ks) && forall k :: k in ks ==> k !in t.rows
    ensures SetAll(t, ks, vs).keys == t.keys + ks
    ensures SetAll(t, ks, vs).Values() == t.Values() + vs
    decreases |ks|
  {
    if ks != [] {
      var n := |ks| - 1;
      PrefixFresh(t, ks);
      SetAllFresh(t, ks[..n], vs[..n]);
      var r := SetAll(t, ks[..n], vs[..n]);
      FreshAfter(t, ks, r);
      AppendLast(r, ks, vs, t.keys, t.Values());
    }
  }

  lemma AppendLast<V>(r: Table<V>, ks: seq<string>, vs: seq<V>, tk: seq<string>, tv: seq<V>)
    requires r.Valid() && |ks| == |vs| && ks != [] && ks[|ks| - 1] !in r.rows
    requires r.keys == tk + ks[..|ks| - 1] && r.Values() == tv + vs[..|ks| - 1]
    ensures r.Set(ks[|ks| - 1], vs[|ks| - 1]).keys == tk + ks
    ensures r.Set(ks[|ks| - 1], vs[|ks| - 1]).Values() == tv + vs
  {
    ValuesSetAbsent(r, ks[|ks| - 1], vs[|ks| - 1]);
    LastSplit(ks);
    LastSplit(vs);
  }

  lemma PrefixFresh<V>(t: Table<V>, ks: seq<string>)
    requires ks != []
    requires NoDup(ks) && forall k :: k in ks ==> k !in t.rows
    ensures NoDup(ks[..|ks| - 1]) && forall k :: k in ks[..|ks| - 1] ==> k !in t.rows
  {
    assert forall i :: 0 <= i < |ks| - 1 ==> ks[..|ks| - 1][i] == ks[i];
    assert forall k :: k in ks[..|ks| - 1] ==> k in ks;
  }

  lemma LastSplit<T>(s: seq<T>)
    requires s != []
    ensures s == s[..|s| - 1] + [s[|s| - 1]]
  {
  }

  lemma FreshAfter<V>(t: Table<V>, ks: seq<string>, r: Table<V>)
    requires t.Valid() && r.Valid() && ks != []
    requires NoDup(ks) && forall k :: k in ks ==> k !in t.rows
    requires r.keys == t.keys + ks[..|ks| - 1]
    ensures ks[|ks| - 1] !in r.rows
  {
    var n := |ks| - 1;
    forall i | 0 <= i < |r.keys| ensures r.keys[i] != ks[n] {
      if i >= |t.keys| {
        assert r.keys[i] == ks[i - |t.keys|];
      } else {
        assert r.keys[i] == t.keys[i];
        assert t.keys[i] in t.rows;
      }
    }
  }

  /** The `forEach` loop that stores each record of a literal array under its id. */
  method SetEach<V>(t: Table<V>, ks: seq<string>, vs: seq<V>) returns (r: Table<V>)
    requires t.Valid() && |ks| == |vs|
    ensures r == SetAll(t, ks, vs)
  {
    r := t;
    for i := 0 to |ks|
      invariant r == SetAll(t, ks[..i], vs[..i])
    {
      assert ks[..i + 1][..i] == ks[..i] && vs[..i + 1][..i] == vs[..i];
      r := r.Set(ks[i], vs[i]);
    }
    assert ks[..|ks|] == ks && vs[..|vs|] == vs;
  }
}
