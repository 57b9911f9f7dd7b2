/** Value types shared by every part of the model: an optional value, and the
    insertion-ordered set and map that JavaScript's `Set` and `Map` are. Both
    JavaScript collections iterate in insertion order, and the hub's outbound
    messages depend on that order, so they are modelled as a sequence of
    distinct keys (plus a finite map for the values).

    The functions here carry no quantified postconditions; what they mean is
    stated by the lemmas next to them, which callers invoke where they need it. */
module Common {

  datatype Option<T> = None | Some(value: T)

  /** No element occurs twice. */
  predicate Distinct<T(==,!new)>(s: seq<T>) {
    forall i, j :: 0 <= i < j < |s| ==> s[i] != s[j]
  }

  /** The elements of a sequence as a set (the spread `new Set(xs)`). */
  function Elems<T(==,!new)>(s: seq<T>): set<T> {
    set x | x in s
  }

  /** The position of an element in a sequence that holds it. */
  function IndexOf<T(==)>(s: seq<T>, x: T): (i: nat)
    requires x in s
    ensures i < |s| && s[i] == x
  {
    if s[0] == x then 0 else 1 + IndexOf(s[1..], x)
  }

  /** Concatenation is associative. */
  lemma AppendAssoc<T>(a: seq<T>, b: seq<T>, c: seq<T>)
    ensures a + (b + c) == (a + b) + c
  {
  }

  /** The element set of a sequence grows with the sequence. */
  lemma ElemsConcat<T(!new)>(a: seq<T>, b: seq<T>)
    ensures Elems(a + b) == Elems(a) + Elems(b)
  {
    assert forall x :: x in a + b <==> x in a || x in b;
  }

  /** Growing a prefix by one element grows its element set by that element. */
  lemma ElemsPrefix<T(!new)>(s: seq<T>, i: nat)
    requires i < |s|
    ensures Elems(s[..i + 1]) == Elems(s[..i]) + {s[i]}
  {
    assert s[..i + 1] == s[..i] + [s[i]];
    ElemsConcat(s[..i], [s[i]]);
  }

  // ---------------------------------------------------------------------------
  // Insertion-ordered set: a sequence without duplicates.

  /** `set.add(x)`: a new element goes to the end, an old one keeps its place. */
  function Add<T(==,!new)>(s: seq<T>, x: T): seq<T> {
    if x in s then s else s + [x]
  }

  /** After `add(x)` the set holds x and what it held before, each once. */
  lemma AddSpec<T(!new)>(s: seq<T>, x: T)
    ensures Elems(Add(s, x)) == Elems(s) + {x}
    ensures Distinct(s) ==> Distinct(Add(s, x))
  {
    if x !in s {
      ElemsConcat(s, [x]);
      if Distinct(s) {
        var r := s + [x];
        forall i, j | 0 <= i < j < |r|
          ensures r[i] != r[j]
        {
          if j == |s| {
            assert r[i] == s[i];
          }
        }
      }
    }
  }

  /** `xs.forEach(x => set.add(x))`: the elements of xs added one after the other. */
  function AddAll<T(==,!new)>(s: seq<T>, xs: seq<T>): seq<T>
    decreases |xs|
  {
    if xs == [] then s else Add(AddAll(s, xs[..|xs| - 1]), xs[|xs| - 1])
  }

  /** Adding xs to s gives the union, and never a duplicate. */
  lemma {:induction false} AddAllSpec<T(!new)>(s: seq<T>, xs: seq<T>)
    ensures Elems(AddAll(s, xs)) == Elems(s) + Elems(xs)
    ensures Distinct(s) ==> Distinct(AddAll(s, xs))
    decreases |xs|
  {
    if xs != [] {
      var init, last := xs[..|xs| - 1], xs[|xs| - 1];
      AddAllSpec(s, init);
      AddSpec(AddAll(s, init), last);
      assert init + [last] == xs;
      ElemsConcat(init, [last]);
    }
  }

  /** Adding the elements a sequence already holds changes nothing. */
  lemma {:induction false} AddAllPresent<T(!new)>(s: seq<T>, xs: seq<T>)
    requires forall x :: x in xs ==> x in s
    ensures AddAll(s, xs) == s
    decreases |xs|
  {
    if xs != [] {
      AddAllPresent(s, xs[..|xs| - 1]);
    }
  }

  /** The elements of s that are not in `excluded`, in their order
      (`[...s].filter(x => !excluded.has(x))`, and `set.delete` for one key). */
  function Without<T(==,!new)>(s: seq<T>, excluded: set<T>): seq<T> {
    if s == [] then []
    else if s[0] in excluded then Without(s[1..], excluded)
    else [s[0]] + Without(s[1..], excluded)
  }

  /** Filtering keeps exactly the elements outside `excluded`, never creates
      a duplicate, and never lengthens the sequence. */
  lemma {:induction false} WithoutSpec<T(!new)>(s: seq<T>, excluded: set<T>)
    ensures Elems(Without(s, excluded)) == Elems(s) - excluded
    ensures Distinct(s) ==> Distinct(Without(s, excluded))
    ensures |Without(s, excluded)| <= |s|
  {
    if s != [] {
      var rest := Without(s[1..], excluded);
      if Distinct(s) {
        forall i, j | 0 <= i < j < |s[1..]|
          ensures s[1..][i] != s[1..][j]
        {
          assert s[1..][i] == s[i + 1] && s[1..][j] == s[j + 1];
        }
      }
      WithoutSpec(s[1..], excluded);
      assert s == [s[0]] + s[1..];
      ElemsConcat([s[0]], s[1..]);
      if s[0] !in excluded {
        ElemsConcat([s[0]], rest);
        if Distinct(s) {
          var r := [s[0]] + rest;
          forall i, j | 0 <= i < j < |r|
            ensures r[i] != r[j]
          {
            if i == 0 {
              assert r[j] in Elems(rest);
            } else {
              assert r[i] == rest[i - 1] && r[j] == rest[j - 1];
            }
          }
        }
      }
    }
  }

  /** Removing nothing leaves a sequence as it is. */
  lemma {:induction false} WithoutNone<T(!new)>(s: seq<T>)
    ensures Without(s, {}) == s
  {
    if s != [] {
      WithoutNone(s[1..]);
    }
  }

  /** Taking out A and then B is taking out A + B. */
  lemma {:induction false} WithoutWithout<T(!new)>(s: seq<T>, a: set<T>, b: set<T>)
    ensures Without(Without(s, a), b) == Without(s, a + b)
  {
    if s != [] {
      WithoutWithout(s[1..], a, b);
    }
  }

  // ---------------------------------------------------------------------------
  // Insertion-ordered map.

  datatype OMap<K(==,!new), V> = OMap(keys: seq<K>, vals: map<K, V>) {

    /** The key order lists every key of the map exactly once. */
    predicate Valid() {
      Distinct(keys) && vals.Keys == Elems(keys)
    }

    /** `map.set(k, v)`: an existing key keeps its position. */
    function Put(k: K, v: V): (r: OMap<K, V>)
      ensures Valid() ==> r.Valid()
    {
      AddSpec(keys, k);
      OMap(Add(keys, k), vals[k := v])
    }

    /** `ks.forEach(k => map.delete(k))`. */
    function DeleteKeys(ks: set<K>): (r: OMap<K, V>)
      ensures Valid() ==> r.Valid()
    {
      WithoutSpec(keys, ks);
      OMap(Without(keys, ks), vals - ks)
    }

    /** The `[key, value]` pairs of `for (const [k, v] of map)`, in key order. */
    function Entries(): (r: seq<(K, V)>)
      requires Valid()
      ensures |r| == |keys|
      ensures forall i :: 0 <= i < |keys| ==> r[i] == (keys[i], vals[keys[i]])
    {
      seq(|keys|, i requires 0 <= i < |keys| => (keys[i], vals[keys[i]]))
    }

    /** `Array.from(map.values())`. */
    function Values(): (r: seq<V>)
      requires Valid()
      ensures |r| == |keys|
      ensures forall i :: 0 <= i < |keys| ==> r[i] == vals[keys[i]]
    {
      seq(|keys|, i requires 0 <= i < |keys| => vals[keys[i]])
    }
  }

  function EmptyMap<K(==,!new), V>(): (r: OMap<K, V>)
    ensures r.Valid() && r.keys == [] && r.vals == map[]
  {
    OMap([], map[])
  }

  /** `set` keeps an existing key's position and appends a new one. */
  lemma PutSpec<K(!new), V>(m: OMap<K, V>, k: K, v: V)
    requires m.Valid()
    ensures k in m.vals ==> m.Put(k, v).keys == m.keys
    ensures k !in m.vals ==> m.Put(k, v).keys == m.keys + [k]
  {
    AddSpec(m.keys, k);
  }

  /** Deleting key set A and then B deletes A + B. */
  lemma DeleteKeysTwice<K(!new), V>(m: OMap<K, V>, a: set<K>, b: set<K>)
    ensures m.DeleteKeys(a).DeleteKeys(b) == m.DeleteKeys(a + b)
  {
    WithoutWithout(m.keys, a, b);
    assert m.vals - a - b == m.vals - (a + b);
  }

  /** Removing key set A and then B from a map removes A + B. */
  lemma MapMinusTwice<K(!new), V>(m: map<K, V>, a: set<K>, b: set<K>)
    ensures m - a - b == m - (a + b)
  {
  }
}
