/** A filter object: a map from keys to values together with the order in which `for ... in`
    enumerates its keys, and the two object operations the data provider applies to it. */
module Filters {
  import opened Values

  /** No element occurs twice. */
  predicate Distinct<T(==)>(s: seq<T>) {
    |s| == 0 || (s[0] !in s[1..] && Distinct(s[1..]))
  }

  /** A new element appended at the end keeps the elements distinct. */
  lemma {:induction false} DistinctAppend<T>(s: seq<T>, x: T)
    requires Distinct(s) && x !in s
    ensures Distinct(s + [x])
  {
    if |s| > 0 {
      assert (s + [x])[1..] == s[1..] + [x];
      DistinctAppend(s[1..], x);
    }
  }

  /** `entries` holds the properties; `order` is their enumeration order. */
  datatype Filter = Filter(entries: map<string, Value>, order: seq<string>) {
    /** Every property is enumerated exactly once. */
    predicate WellFormed() {
      && Distinct(order)
      && (forall k :: k in entries ==> k in order)
      && (forall k :: k in order ==> k in entries)
    }
  }

  /** The keys of `keys` that are not in `gone`, in their original order. */
  function Without(keys: seq<string>, gone: set<string>): (r: seq<string>)
    ensures forall k :: k in r <==> k in keys && k !in gone
    ensures Distinct(keys) ==> Distinct(r)
    ensures |r| <= |keys|
  {
    if |keys| == 0 then []
    else if keys[0] in gone then Without(keys[1..], gone)
    else [keys[0]] + Without(keys[1..], gone)
  }

  /** A single key is kept exactly when it is not removed. */
  lemma WithoutSingle(k: string, gone: set<string>)
    ensures Without([k], gone) == if k in gone then [] else [k]
  {
    assert [k][1..] == [];
  }

  /** Removing keys from a concatenation removes them from each part, and the kept keys of the
      first part come before those of the second: with `WithoutSingle`, the kept keys keep their
      relative order. */
  lemma {:induction false} WithoutAppend(a: seq<string>, b: seq<string>, gone: set<string>)
    ensures Without(a + b, gone) == Without(a, gone) + Without(b, gone)
  {
    if |a| == 0 {
      assert a + b == b;
    } else {
      assert (a + b)[0] == a[0];
      assert (a + b)[1..] == a[1..] + b;
      WithoutAppend(a[1..], b, gone);
    }
  }

  /** Nothing is removed when no key is in `gone`. */
  lemma {:induction false} WithoutNone(keys: seq<string>, gone: set<string>)
    requires forall k :: k in keys ==> k !in gone
    ensures Without(keys, gone) == keys
  {
    if |keys| > 0 {
      assert keys[0] in keys;
      WithoutNone(keys[1..], gone);
      assert keys == [keys[0]] + keys[1..];
    }
  }

  /** Removing two sets of keys one after the other removes their union. */
  lemma {:induction false} WithoutWithout(keys: seq<string>, a: set<string>, b: set<string>)
    ensures Without(Without(keys, a), b) == Without(keys, a + b)
  {
    if |keys| > 0 {
      WithoutWithout(keys[1..], a, b);
      if keys[0] !in a {
        assert Without(keys, a) == [keys[0]] + Without(keys[1..], a);
        assert Without(keys, a)[1..] == Without(keys[1..], a);
      }
    }
  }

  /** `delete f[key]`, and equally the rest object of `{ [key]: _, ...f }`: the property is gone
      and the remaining keys keep their order. */
  function Delete(f: Filter, key: string): (r: Filter)
    ensures r.entries.Keys == f.entries.Keys - {key}
    ensures forall k :: k in r.entries ==> r.entries[k] == f.entries[k]
    ensures key !in r.order && (forall k :: k in r.order <==> k in f.order && k != key)
    ensures r.order == Without(f.order, {key})
    ensures f.WellFormed() ==> r.WellFormed()
  {
    Filter(f.entries - {key}, Without(f.order, {key}))
  }

  /** Deleting a property enumerated once leaves the keys before it and after it in place:
      `a + [key] + b` becomes `a + b`. */
  lemma DeleteKeepsPlaces(f: Filter, key: string, a: seq<string>, b: seq<string>)
    requires f.order == a + [key] + b && key !in a && key !in b
    ensures Delete(f, key).order == a + b
  {
    calc {
      Delete(f, key).order;
      Without((a + [key]) + b, {key});
      { WithoutAppend(a + [key], b, {key}); }
      Without(a + [key], {key}) + Without(b, {key});
      { WithoutAppend(a, [key], {key}); WithoutSingle(key, {key}); }
      Without(a, {key}) + [] + Without(b, {key});
      { WithoutNone(a, {key}); WithoutNone(b, {key}); }
      a + [] + b;
      { assert a + [] == a; }
      a + b;
    }
  }

  /** `{ ...f, [key]: v }`: the property is set to `v`; an existing key keeps its place in the
      enumeration order, a new one is enumerated last. */
  function Set(f: Filter, key: string, v: Value): (r: Filter)
    ensures r.entries.Keys == f.entries.Keys + {key}
    ensures r.entries[key] == v
    ensures forall k :: k in f.entries && k != key ==> r.entries[k] == f.entries[k]
    ensures key in f.order ==> r.order == f.order
    ensures key !in f.order ==> r.order == f.order + [key]
    ensures f.WellFormed() ==> r.WellFormed()
  {
    var order := if key in f.order then f.order else f.order + [key];
    assert f.WellFormed() && key !in f.order ==> Distinct(order) by {
      if f.WellFormed() && key !in f.order {
        DistinctAppend(f.order, key);
      }
    }
    Filter(f.entries[key := v], order)
  }
}
