/**
  Table scope maps: the `Map<String, TableSegmentBinderContext>` objects the statement
  binders create and hand to the segment binders.

  Two Java map kinds occur: `LinkedHashMap` (exact keys) and `CaseInsensitiveMap` (keys
  compared after case folding). Both iterate in insertion order, and both keep the key
  object and the position of an entry when a later `put` hits an equal key, replacing
  only the value. A `ScopeMap` is that ordered entry list plus the comparison it uses.
*/
module Scopes {
  import opened Wrappers

  datatype Entry<V> = Entry(key: string, value: V)

  datatype ScopeMap<V> = ScopeMap(caseInsensitive: bool, entries: seq<Entry<V>>)

  /** A new, empty map of the given kind. */
  function Empty<V>(caseInsensitive: bool): ScopeMap<V> {
    ScopeMap(caseInsensitive, [])
  }

  /** ASCII case folding, the key normalisation of a case-insensitive map. */
  function Fold(s: string): string {
    seq(|s|, i requires 0 <= i < |s| => if 'A' <= s[i] <= 'Z' then (s[i] as int + 32) as char else s[i])
  }

  /** Whether two keys denote the same entry in a map of the given kind. */
  predicate SameKey(caseInsensitive: bool, a: string, b: string) {
    if caseInsensitive then Fold(a) == Fold(b) else a == b
  }

  /** No two entries share a key: the invariant every Java map keeps. */
  ghost predicate Unique<V>(caseInsensitive: bool, es: seq<Entry<V>>) {
    forall i, j :: 0 <= i < j < |es| ==> !SameKey(caseInsensitive, es[i].key, es[j].key)
  }

  ghost predicate Valid<V>(m: ScopeMap<V>) {
    Unique(m.caseInsensitive, m.entries)
  }

  /** The keys in iteration order. */
  function Keys<V>(m: ScopeMap<V>): (ks: seq<string>)
    ensures |ks| == |m.entries|
    ensures forall i :: 0 <= i < |ks| ==> ks[i] == m.entries[i].key
  {
    seq(|m.entries|, i requires 0 <= i < |m.entries| => m.entries[i].key)
  }

  /** Position of the first entry whose key matches `k`. */
  function IndexOf<V>(caseInsensitive: bool, es: seq<Entry<V>>, k: string): (r: Option<nat>)
    ensures r.Some? ==> r.value < |es| && SameKey(caseInsensitive, es[r.value].key, k)
    ensures r.Some? ==> forall j :: 0 <= j < r.value ==> !SameKey(caseInsensitive, es[j].key, k)
    ensures r.None? ==> forall j :: 0 <= j < |es| ==> !SameKey(caseInsensitive, es[j].key, k)
  {
    if |es| == 0 then None
    else if SameKey(caseInsensitive, es[0].key, k) then Some(0)
    else match IndexOf(caseInsensitive, es[1..], k)
      case None => None
      case Some(i) => Some(i + 1)
  }

  /** `get`: the value of the entry matching `k`, if any. */
  function Lookup<V>(m: ScopeMap<V>, k: string): Option<V> {
    match IndexOf(m.caseInsensitive, m.entries, k)
    case None => None
    case Some(i) => Some(m.entries[i].value)
  }

  /** The value of the LAST entry of `es` matching `k`: what a series of puts leaves behind. */
  function LookupLast<V>(caseInsensitive: bool, es: seq<Entry<V>>, k: string): (r: Option<V>)
    ensures r.None? <==> forall j :: 0 <= j < |es| ==> !SameKey(caseInsensitive, es[j].key, k)
  {
    if |es| == 0 then None
    else
      var rest := LookupLast(caseInsensitive, es[1..], k);
      if rest.Some? then rest
      else if SameKey(caseInsensitive, es[0].key, k) then Some(es[0].value)
      else None
  }

  /** The first match depends on the keys only. */
  lemma {:induction false} IndexOfSameKeys<V>(caseInsensitive: bool, es: seq<Entry<V>>, fs: seq<Entry<V>>, k: string)
    requires |es| == |fs|
    requires forall i :: 0 <= i < |es| ==> es[i].key == fs[i].key
    ensures IndexOf(caseInsensitive, es, k) == IndexOf(caseInsensitive, fs, k)
  {
    if |es| > 0 {
      IndexOfSameKeys(caseInsensitive, es[1..], fs[1..], k);
    }
  }

  /** Appending an entry only matters to keys that had no match. */
  lemma {:induction false} IndexOfAppend<V>(caseInsensitive: bool, es: seq<Entry<V>>, e: Entry<V>, k: string)
    ensures IndexOf(caseInsensitive, es + [e], k) ==
      if IndexOf(caseInsensitive, es, k).Some? then IndexOf(caseInsensitive, es, k)
      else if SameKey(caseInsensitive, e.key, k) then Some(|es|)
      else None
  {
    if |es| > 0 {
      assert (es + [e])[1..] == es[1..] + [e];
      IndexOfAppend(caseInsensitive, es[1..], e, k);
    }
  }

  /** Replacing the value of the entry at the first match of `k`: only keys equal to `k` read differently. */
  lemma ReplaceValue<V>(m: ScopeMap<V>, i: nat, k: string, v: V)
    requires IndexOf(m.caseInsensitive, m.entries, k) == Some(i)
    ensures var r := m.(entries := m.entries[i := Entry(m.entries[i].key, v)]);
            && Keys(r) == Keys(m)
            && (Valid(m) ==> Valid(r))
            && forall k' :: Lookup(r, k') == if SameKey(m.caseInsensitive, k, k') then Some(v) else Lookup(m, k')
  {
    var r := m.(entries := m.entries[i := Entry(m.entries[i].key, v)]);
    assert Keys(r) == Keys(m);
    forall k' ensures IndexOf(r.caseInsensitive, r.entries, k') == IndexOf(m.caseInsensitive, m.entries, k') {
      IndexOfSameKeys(m.caseInsensitive, r.entries, m.entries, k');
    }
  }

  /** Appending an entry for a key with no match: only keys equal to `k` read differently. */
  lemma AppendEntry<V>(m: ScopeMap<V>, k: string, v: V)
    requires IndexOf(m.caseInsensitive, m.entries, k).None?
    ensures var r := m.(entries := m.entries + [Entry(k, v)]);
            && Keys(r) == Keys(m) + [k]
            && (Valid(m) ==> Valid(r))
            && forall k' :: Lookup(r, k') == if SameKey(m.caseInsensitive, k, k') then Some(v) else Lookup(m, k')
  {
    var r := m.(entries := m.entries + [Entry(k, v)]);
    assert Keys(r) == Keys(m) + [k];
    forall k' ensures Lookup(r, k') == if SameKey(m.caseInsensitive, k, k') then Some(v) else Lookup(m, k') {
      IndexOfAppend(m.caseInsensitive, m.entries, Entry(k, v), k');
    }
  }

  /** `put`: replaces the value of a matching entry in place, or appends a new entry. */
  function Put<V>(m: ScopeMap<V>, k: string, v: V): (r: ScopeMap<V>)
    ensures r.caseInsensitive == m.caseInsensitive
    ensures forall k' :: Lookup(r, k') == if SameKey(m.caseInsensitive, k, k') then Some(v) else Lookup(m, k')
    ensures Valid(m) ==> Valid(r)
    ensures Keys(m) <= Keys(r)
    ensures forall k' :: k' in Keys(r) ==> k' in Keys(m) || k' == k
  {
    match IndexOf(m.caseInsensitive, m.entries, k)
    case Some(i) =>
      ReplaceValue(m, i, k, v);
      m.(entries := m.entries[i := Entry(m.entries[i].key, v)])
    case None =>
      AppendEntry(m, k, v);
      m.(entries := m.entries + [Entry(k, v)])
  }

  /** `putAll`: the entries of `es`, put one by one in order. */
  function PutEntries<V>(m: ScopeMap<V>, es: seq<Entry<V>>): (r: ScopeMap<V>)
    ensures r.caseInsensitive == m.caseInsensitive
    decreases |es|
  {
    if |es| == 0 then m else PutEntries(Put(m, es[0].key, es[0].value), es[1..])
  }

  function PutAll<V>(m: ScopeMap<V>, other: ScopeMap<V>): (r: ScopeMap<V>)
    ensures r.caseInsensitive == m.caseInsensitive
  {
    PutEntries(m, other.entries)
  }

  /** After `putAll`, a key reads the last value `other` holds for it, or else its old value. */
  lemma {:induction false} PutEntriesLookup<V>(m: ScopeMap<V>, es: seq<Entry<V>>, k: string)
    ensures Lookup(PutEntries(m, es), k) ==
      (var last := LookupLast(m.caseInsensitive, es, k); if last.Some? then last else Lookup(m, k))
    decreases |es|
  {
    if |es| > 0 {
      PutEntriesLookup(Put(m, es[0].key, es[0].value), es[1..], k);
    }
  }

  /** `putAll` keeps the old keys in front and adds only keys of `es`; it keeps a map valid. */
  lemma {:induction false} PutEntriesKeys<V>(m: ScopeMap<V>, es: seq<Entry<V>>)
    ensures Keys(m) <= Keys(PutEntries(m, es))
    ensures forall k :: k in Keys(PutEntries(m, es)) ==> k in Keys(m) || exists j :: 0 <= j < |es| && es[j].key == k
    ensures Valid(m) ==> Valid(PutEntries(m, es))
    decreases |es|
  {
    if |es| > 0 {
      var m' := Put(m, es[0].key, es[0].value);
      PutEntriesKeys(m', es[1..]);
      forall k | k in Keys(PutEntries(m, es))
        ensures k in Keys(m) || exists j :: 0 <= j < |es| && es[j].key == k
      {
        if k !in Keys(m) {
          if k == es[0].key {
            assert es[0].key == k;
          } else {
            assert k !in Keys(m');
            var j :| 0 <= j < |es[1..]| && es[1..][j].key == k;
            assert es[j + 1].key == k;
          }
        }
      }
    }
  }

  /** Keys unique under case folding are unique as exact strings too. */
  lemma UniqueExact<V>(es: seq<Entry<V>>)
    requires Unique(true, es)
    ensures Unique(false, es)
  {
    forall i, j | 0 <= i < j < |es|
      ensures !SameKey(false, es[i].key, es[j].key)
    {
      assert !SameKey(true, es[i].key, es[j].key);
    }
  }

  /** In a valid entry list the last match is the only match. */
  lemma {:induction false} UniqueLookupLast<V>(caseInsensitive: bool, es: seq<Entry<V>>, j: nat)
    requires Unique(caseInsensitive, es)
    requires j < |es|
    ensures LookupLast(caseInsensitive, es, es[j].key) == Some(es[j].value)
  {
    if j == 0 {
      assert forall i :: 0 <= i < |es[1..]| ==> !SameKey(caseInsensitive, es[1..][i].key, es[0].key) by {
        forall i | 0 <= i < |es[1..]|
          ensures !SameKey(caseInsensitive, es[1..][i].key, es[0].key)
        {
          assert !SameKey(caseInsensitive, es[0].key, es[i + 1].key);
        }
      }
    } else {
      UniqueLookupLast(caseInsensitive, es[1..], j - 1);
    }
  }

  /** The last match depends on the key only up to the map's key comparison. */
  lemma {:induction false} LookupLastSameKey<V>(caseInsensitive: bool, es: seq<Entry<V>>, k1: string, k2: string)
    requires SameKey(caseInsensitive, k1, k2)
    ensures LookupLast(caseInsensitive, es, k1) == LookupLast(caseInsensitive, es, k2)
  {
    if |es| > 0 {
      LookupLastSameKey(caseInsensitive, es[1..], k1, k2);
    }
  }

  /** In a valid map, the value a series of puts would leave for a key is the value `get` returns. */
  lemma LookupLastIsLookup<V>(m: ScopeMap<V>, k: string)
    requires Valid(m)
    ensures LookupLast(m.caseInsensitive, m.entries, k) == Lookup(m, k)
  {
    match IndexOf(m.caseInsensitive, m.entries, k)
    case None =>
    case Some(i) =>
      UniqueLookupLast(m.caseInsensitive, m.entries, i);
      LookupLastSameKey(m.caseInsensitive, m.entries, m.entries[i].key, k);
  }

  /** Putting entries whose keys are all new appends them unchanged. */
  lemma {:induction false} PutEntriesFresh<V>(caseInsensitive: bool, done: seq<Entry<V>>, rest: seq<Entry<V>>)
    requires Unique(caseInsensitive, done + rest)
    ensures PutEntries(ScopeMap(caseInsensitive, done), rest) == ScopeMap(caseInsensitive, done + rest)
    decreases |rest|
  {
    if |rest| > 0 {
      var all := done + rest;
      forall j | 0 <= j < |done|
        ensures !SameKey(caseInsensitive, done[j].key, rest[0].key)
      {
        assert all[j] == done[j] && all[|done|] == rest[0];
      }
      assert (done + [rest[0]]) + rest[1..] == all;
      PutEntriesFresh(caseInsensitive, done + [rest[0]], rest[1..]);
    }
  }

  /** Copying a valid map into a new empty map of its own kind reproduces it exactly. */
  lemma PutAllIntoEmpty<V>(m: ScopeMap<V>)
    requires Valid(m)
    ensures PutAll(Empty(m.caseInsensitive), m) == m
  {
    assert [] + m.entries == m.entries;
    PutEntriesFresh(m.caseInsensitive, [], m.entries);
  }
}
