/** The `services` and `patterns` objects `prepare` builds, as insertion-ordered tables,
    and the two `reduce` passes that build them from an entry list. Both tool
    implementations share this code: their reducers are the same. */
module ServiceTable {
  import opened ServiceConfig

  /** A JavaScript object with string keys: the keys in insertion order and their values. */
  datatype Table<V> = Table(keys: seq<string>, values: map<string, V>)

  /** No key is listed twice. */
  ghost predicate Distinct(ks: seq<string>) {
    forall i, j :: 0 <= i < j < |ks| ==> ks[i] != ks[j]
  }

  /** The key list and the value map describe the same object. */
  ghost predicate Valid<V>(t: Table<V>) {
    Distinct(t.keys) && forall k :: k in t.values <==> k in t.keys
  }

  /** `result[key] = value`: an existing key keeps its place, a new one goes last. */
  function Put<V>(t: Table<V>, key: string, value: V): (r: Table<V>)
    ensures Valid(t) ==> Valid(r)
    ensures key in r.values && r.values[key] == value
    ensures forall k :: k != key ==> (k in r.values <==> k in t.values)
    ensures forall k :: k != key && k in t.values ==> r.values[k] == t.values[k]
  {
    Table(if key in t.values then t.keys else t.keys + [key], t.values[key := value])
  }

  /** The `services` reducer callback: a new key is stored as is; a repeated key is
      merged with `Object.assign({}, result[key], service)`. */
  function AddService(t: Table<Service>, key: string, service: Service): (r: Table<Service>)
    ensures key in r.values
    ensures key !in t.values || HasAllKeys(service) ==> r.values[key] == service
    ensures forall k :: k != key ==> (k in r.values <==> k in t.values)
    ensures forall k :: k != key && k in t.values ==> r.values[k] == t.values[k]
  {
    if key !in t.values then Put(t, key, service)
    else Put(t, key, Assign(t.values[key], service))
  }

  /** `entries.reduce(addService, {})`, written as a fold that takes the last entry off. */
  function ReduceServices(entries: seq<(string, Service)>): (r: Table<Service>)
    ensures |r.keys| <= |entries|
    ensures forall k :: k in r.values ==> k in KeysOf(entries)
  {
    if entries == [] then Table([], map[])
    else
      var last := entries[|entries| - 1];
      AddService(ReduceServices(entries[..|entries| - 1]), last.0, last.1)
  }

  /** `entries.reduce((result, [key, item]) => { result[key] = item.regex; ... }, {})`. */
  function ReducePatterns(entries: seq<(string, Service)>): (r: Table<RegExp>)
    ensures |r.keys| <= |entries|
    ensures forall k :: k in r.values ==> k in KeysOf(entries)
  {
    if entries == [] then Table([], map[])
    else
      var last := entries[|entries| - 1];
      Put(ReducePatterns(entries[..|entries| - 1]), last.0, last.1.regex)
  }

  /** The keys of two entry lists one after the other. */
  lemma KeysOfAppend<V>(a: seq<(string, V)>, b: seq<(string, V)>)
    ensures KeysOf(a + b) == KeysOf(a) + KeysOf(b)
  {
  }

  /** The keys of a list, each at its first occurrence. */
  function FirstOccurrences(ks: seq<string>): (r: seq<string>)
    ensures forall k :: k in r <==> k in ks
    ensures Distinct(r)
  {
    if ks == [] then []
    else
      var prefix := FirstOccurrences(ks[..|ks| - 1]);
      var k := ks[|ks| - 1];
      assert forall x :: x in ks <==> x in ks[..|ks| - 1] || x == k by {
        assert ks == ks[..|ks| - 1] + [k];
      }
      if k in prefix then prefix else prefix + [k]
  }

  /** The keys of `b` that are not in `a`, in order. */
  function NotIn(b: seq<string>, a: seq<string>): (r: seq<string>)
    ensures forall k :: k in r <==> k in b && k !in a
  {
    if b == [] then []
    else
      var k := b[|b| - 1];
      assert forall x :: x in b <==> x in b[..|b| - 1] || x == k by {
        assert b == b[..|b| - 1] + [k];
      }
      if k in a then NotIn(b[..|b| - 1], a) else NotIn(b[..|b| - 1], a) + [k]
  }

  /** The filter keeps order: filtering a concatenation filters each part in turn. */
  lemma {:induction false} NotInAppend(b1: seq<string>, b2: seq<string>, a: seq<string>)
    ensures NotIn(b1 + b2, a) == NotIn(b1, a) + NotIn(b2, a)
    decreases |b2|
  {
    if b2 == [] {
      assert b1 + b2 == b1;
    } else {
      var b2' := b2[..|b2| - 1];
      assert (b1 + b2)[..|b1 + b2| - 1] == b1 + b2';
      assert (b1 + b2)[|b1 + b2| - 1] == b2[|b2| - 1];
      NotInAppend(b1, b2', a);
    }
  }

  /** `entries.filter(([key]) => keys.includes(key))`: the entries whose key is listed,
      in order. */
  function KeepKeys(entries: seq<(string, Service)>, keys: seq<string>): (r: seq<(string, Service)>)
    ensures forall e :: e in r <==> e in entries && e.0 in keys
  {
    if entries == [] then []
    else
      var prefix := entries[..|entries| - 1];
      var last := entries[|entries| - 1];
      assert entries == prefix + [last];
      if last.0 in keys then KeepKeys(prefix, keys) + [last] else KeepKeys(prefix, keys)
  }

  /** Filtering distributes over concatenation, so it keeps the entries' order. */
  lemma {:induction false} KeepKeysAppend(a: seq<(string, Service)>, b: seq<(string, Service)>, keys: seq<string>)
    ensures KeepKeys(a + b, keys) == KeepKeys(a, keys) + KeepKeys(b, keys)
    decreases |b|
  {
    if b == [] {
      assert a + b == a;
    } else {
      var b' := b[..|b| - 1];
      assert (a + b)[..|a + b| - 1] == a + b';
      assert (a + b)[|a + b| - 1] == b[|b| - 1];
      KeepKeysAppend(a, b', keys);
    }
  }

  /** An entry's key survives the filter exactly when it is listed. */
  lemma KeptKey(entries: seq<(string, Service)>, keys: seq<string>, key: string)
    requires key in KeysOf(entries)
    ensures key in KeysOf(KeepKeys(entries, keys)) <==> key in keys
  {
    var r := KeepKeys(entries, keys);
    var b :| 0 <= b < |entries| && KeysOf(entries)[b] == key;
    if key in keys {
      assert entries[b] in r;
      var m :| 0 <= m < |r| && r[m] == entries[b];
      assert KeysOf(r)[m] == key;
    } else {
      forall m | 0 <= m < |r|
        ensures KeysOf(r)[m] != key
      {
        assert r[m] in r;
      }
    }
  }

  /** Filtering keeps keys distinct. */
  lemma {:induction false} KeepKeysDistinct(entries: seq<(string, Service)>, keys: seq<string>)
    requires DistinctKeys(entries)
    ensures DistinctKeys(KeepKeys(entries, keys))
  {
    if entries != [] {
      var prefix := entries[..|entries| - 1];
      var last := entries[|entries| - 1];
      assert DistinctKeys(prefix);
      KeepKeysDistinct(prefix, keys);
      var r := KeepKeys(prefix, keys);
      forall i | 0 <= i < |r|
        ensures r[i].0 != last.0
      {
        assert r[i] in r;
        var a :| 0 <= a < |prefix| && prefix[a] == r[i];
        assert entries[a] == prefix[a];
      }
    }
  }

  /** The `services` reduce, as the source runs it: a loop over the entries that updates
      its accumulator in place. */
  method BuildServices(entries: seq<(string, Service)>) returns (result: Table<Service>)
    ensures result == ReduceServices(entries)
  {
    result := Table([], map[]);
    var i := 0;
    while i < |entries|
      invariant 0 <= i <= |entries|
      invariant result == ReduceServices(entries[..i])
    {
      assert entries[..i + 1][..i] == entries[..i];
      result := AddService(result, entries[i].0, entries[i].1);
      i := i + 1;
    }
    assert entries[..|entries|] == entries;
  }

  /** The `patterns` reduce, as a loop. */
  method BuildPatterns(entries: seq<(string, Service)>) returns (result: Table<RegExp>)
    ensures result == ReducePatterns(entries)
  {
    result := Table([], map[]);
    var i := 0;
    while i < |entries|
      invariant 0 <= i <= |entries|
      invariant result == ReducePatterns(entries[..i])
    {
      assert entries[..i + 1][..i] == entries[..i];
      result := Put(result, entries[i].0, entries[i].1.regex);
      i := i + 1;
    }
    assert entries[..|entries|] == entries;
  }

  /** The services object holds each key of the entries exactly once, in order of first
      occurrence, and nothing else. */
  lemma {:induction false} ServicesKeys(entries: seq<(string, Service)>)
    ensures Valid(ReduceServices(entries))
    ensures ReduceServices(entries).keys == FirstOccurrences(KeysOf(entries))
  {
    if entries != [] {
      var prefix := entries[..|entries| - 1];
      ServicesKeys(prefix);
      assert KeysOf(entries)[..|entries| - 1] == KeysOf(prefix);
    }
  }

  /** The patterns object has exactly the keys of the services object, in the same order,
      and each pattern is the regex of the service stored under that key. */
  lemma {:induction false} PatternsMatchServices(entries: seq<(string, Service)>)
    ensures ReducePatterns(entries).keys == ReduceServices(entries).keys
    ensures ReducePatterns(entries).values.Keys == ReduceServices(entries).values.Keys
    ensures forall k :: k in ReduceServices(entries).values ==>
      ReducePatterns(entries).values[k] == ReduceServices(entries).values[k].regex
  {
    if entries != [] {
      PatternsMatchServices(entries[..|entries| - 1]);
    }
  }

  /** An entry's key is in the services object exactly when some entry carries it. */
  lemma ServicesHoldKey(entries: seq<(string, Service)>, key: string)
    ensures key in ReduceServices(entries).values <==> exists i :: 0 <= i < |entries| && entries[i].0 == key
  {
    ServicesKeys(entries);
    if key in KeysOf(entries) {
      var i :| 0 <= i < |entries| && KeysOf(entries)[i] == key;
    }
  }

  /** The services object built from two entry lists one after the other holds exactly
      the keys of either list. */
  lemma ServicesHoldKeyAppend(a: seq<(string, Service)>, b: seq<(string, Service)>, key: string)
    ensures key in ReduceServices(a + b).values <==> key in KeysOf(a) || key in KeysOf(b)
  {
    ServicesKeys(a + b);
    KeysOfAppend(a, b);
  }

  /** The value stored under a key comes from its last entry, when that entry has all
      six keys as own properties (so `Object.assign` overwrites everything) or is the
      only entry for the key. */
  lemma {:induction false} ServicesLookup(entries: seq<(string, Service)>, j: nat)
    requires j < |entries|
    requires forall i :: j < i < |entries| ==> entries[i].0 != entries[j].0
    requires HasAllKeys(entries[j].1) || forall i :: 0 <= i < j ==> entries[i].0 != entries[j].0
    ensures entries[j].0 in ReduceServices(entries).values
    ensures ReduceServices(entries).values[entries[j].0] == entries[j].1
  {
    var prefix := entries[..|entries| - 1];
    if j == |entries| - 1 {
      if !HasAllKeys(entries[j].1) {
        ServicesHoldKey(prefix, entries[j].0);
      }
    } else {
      ServicesLookup(prefix, j);
    }
  }

  /** An entry of a duplicate-free list appended after another list, when it has all six
      keys, is what the services object holds under its key, and its regex is the pattern. */
  lemma LookupAppended(a: seq<(string, Service)>, b: seq<(string, Service)>, m: nat)
    requires DistinctKeys(b) && m < |b| && HasAllKeys(b[m].1)
    ensures b[m].0 in ReduceServices(a + b).values && ReduceServices(a + b).values[b[m].0] == b[m].1
    ensures b[m].0 in ReducePatterns(a + b).values && ReducePatterns(a + b).values[b[m].0] == b[m].1.regex
  {
    var all := a + b;
    var idx := |a| + m;
    assert all[idx] == b[m];
    forall i | idx < i < |all|
      ensures all[i].0 != all[idx].0
    {
      assert all[i] == b[i - |a|];
    }
    ServicesLookup(all, idx);
    PatternsMatchServices(all);
  }

  /** Keys of a duplicate-free list followed by keys of another: the first list, then the
      new keys of the second. */
  lemma {:induction false} FirstOccurrencesAppend(a: seq<string>, b: seq<string>)
    requires Distinct(a) && Distinct(b)
    ensures FirstOccurrences(a + b) == a + NotIn(b, a)
  {
    if b == [] {
      assert a + b == a;
      FirstOccurrencesOfDistinct(a);
    } else {
      var b' := b[..|b| - 1];
      var k := b[|b| - 1];
      assert (a + b)[..|a + b| - 1] == a + b';
      FirstOccurrencesAppend(a, b');
    }
  }

  /** A duplicate-free list is its own first occurrences. */
  lemma {:induction false} FirstOccurrencesOfDistinct(a: seq<string>)
    requires Distinct(a)
    ensures FirstOccurrences(a) == a
  {
    if a != [] {
      var a' := a[..|a| - 1];
      FirstOccurrencesOfDistinct(a');
      assert a' + [a[|a| - 1]] == a;
    }
  }
}
