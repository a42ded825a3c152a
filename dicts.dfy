/** A Python dict as `main` uses it: insertion-ordered keys and the value
    stored under each. Assigning to a key already present replaces its
    value and keeps its position; a new key goes to the end. */
module Dicts {
  import opened Catalog

  /** Every dict of the core is keyed by a document label or file name. */
  datatype Dict<V> = Dict(keys: seq<string>, values: map<string, V>)

  predicate Valid<V>(d: Dict<V>) {
    && Distinct(d.keys)
    && (forall k :: k in d.values ==> k in d.keys)
    && (forall k :: k in d.keys ==> k in d.values)
  }

  function Empty<V>(): (d: Dict<V>)
    ensures Valid(d) && d.keys == [] && d.values == map[]
  {
    Dict([], map[])
  }

  /** `d[k] = v` */
  function Put<V>(d: Dict<V>, k: string, v: V): (r: Dict<V>)
    requires Valid(d)
    ensures Valid(r)
    ensures r.values == d.values[k := v]
    ensures k in d.values ==> r.keys == d.keys
    ensures k !in d.values ==> r.keys == d.keys + [k]
  {
    if k in d.values then Dict(d.keys, d.values[k := v])
    else Dict(d.keys + [k], d.values[k := v])
  }

  /** `d.items()`, in insertion order: every key once, with its value. */
  function Items<V>(d: Dict<V>): (items: seq<(string, V)>)
    requires Valid(d)
    ensures |items| == |d.keys|
    ensures forall i :: 0 <= i < |items| ==> items[i].0 == d.keys[i] && items[i].1 == d.values[d.keys[i]]
    ensures forall i, j :: 0 <= i < j < |items| ==> items[i].0 != items[j].0
    ensures forall k :: k in d.values <==> exists i :: 0 <= i < |items| && items[i].0 == k
  {
    seq(|d.keys|, i requires 0 <= i < |d.keys| => (d.keys[i], d.values[d.keys[i]]))
  }

  /** The first occurrence of each element, in order: the key order of a
      dict filled by assigning to the elements of s one after another. */
  function Dedup<T(==)>(s: seq<T>): seq<T>
    decreases |s|
  {
    if s == [] then []
    else
      var r := Dedup(s[..|s| - 1]);
      if s[|s| - 1] in r then r else r + [s[|s| - 1]]
  }

  lemma {:induction false} DedupContents<T>(s: seq<T>)
    ensures Distinct(Dedup(s))
    ensures forall x :: x in Dedup(s) <==> x in s
    decreases |s|
  {
    if s != [] {
      var init := s[..|s| - 1];
      DedupContents(init);
      assert s == init + [s[|s| - 1]];
    }
  }

  /** A list without repeats is its own first occurrences. */
  lemma {:induction false} DedupDistinct<T>(s: seq<T>)
    requires Distinct(s)
    ensures Dedup(s) == s
    decreases |s|
  {
    if s != [] {
      var init := s[..|s| - 1];
      DedupContents(init);
      DedupDistinct(init);
      assert s[|s| - 1] !in init;
      assert s == init + [s[|s| - 1]];
    }
  }

  /** Assigning vals[j] to keys[j] for j < n leaves under each key the value
      of its last assignment. */
  ghost predicate Latest<V>(d: Dict<V>, keys: seq<string>, vals: seq<V>, n: nat)
    requires n <= |keys| == |vals|
  {
    forall j :: 0 <= j < n && keys[j] !in keys[j + 1..n] ==> keys[j] in d.values && d.values[keys[j]] == vals[j]
  }

  /** One more assignment `d[keys[n]] = vals[n]` keeps the key order the
      first occurrences and the values the last assignments. */
  lemma PutStep<V>(d: Dict<V>, keys: seq<string>, vals: seq<V>, n: nat)
    requires n < |keys| == |vals| && Valid(d)
    requires d.keys == Dedup(keys[..n]) && Latest(d, keys, vals, n)
    ensures Put(d, keys[n], vals[n]).keys == Dedup(keys[..n + 1])
    ensures Latest(Put(d, keys[n], vals[n]), keys, vals, n + 1)
  {
    var k := keys[n];
    assert keys[..n + 1] == keys[..n] + [k];
    assert keys[..n + 1][..n] == keys[..n];
    DedupContents(keys[..n]);
    LatestStep(d, keys, vals, n);
  }

  lemma LatestStep<V>(d: Dict<V>, keys: seq<string>, vals: seq<V>, n: nat)
    requires n < |keys| == |vals| && Latest(d, keys, vals, n)
    ensures Latest(Dict(d.keys, d.values[keys[n] := vals[n]]), keys, vals, n + 1)
  {
    var r := Dict(d.keys, d.values[keys[n] := vals[n]]);
    forall j | 0 <= j < n + 1 && keys[j] !in keys[j + 1..n + 1]
      ensures keys[j] in r.values && r.values[keys[j]] == vals[j]
    {
      if j < n {
        assert keys[j + 1..n + 1][n - j - 1] == keys[n];
        assert keys[j + 1..n] == keys[j + 1..n + 1][..n - j - 1];
        assert keys[j] != keys[n] && keys[j] !in keys[j + 1..n];
      }
    }
  }

  /** After all the assignments every key assigned is present and no other. */
  lemma Assigned<V>(d: Dict<V>, keys: seq<string>)
    requires Valid(d) && d.keys == Dedup(keys)
    ensures forall k :: k in d.values <==> k in keys
  {
    DedupContents(keys);
  }
}
