/** The in-memory cache of generated images (internal/agent/thumbnail_cache.go): a
    list in order of use and a map over it, bounded by bytes. */
module ThumbnailCache {
  import opened Prelude

  type Key = string

  datatype Entry = Entry(key: Key, content: Text, contentType: string)

  // ---- Lists in order of use, most recent first ----

  predicate Distinct(order: seq<Entry>) { forall i, j :: 0 <= i < j < |order| ==> order[i].key != order[j].key }

  function Bytes(order: seq<Entry>): nat {
    if order == [] then 0 else Bytes(order[..|order| - 1]) + |order[|order| - 1].content|
  }

  function Without(order: seq<Entry>, key: Key): seq<Entry> {
    if order == [] then []
    else Without(order[..|order| - 1], key) + if order[|order| - 1].key == key then [] else [order[|order| - 1]]
  }

  /** The longest prefix within a limit: what is left when the least recently used
      entries go until the rest fits. */
  function Fitting(order: seq<Entry>, limit: nat): (r: seq<Entry>)
    ensures r <= order && Bytes(r) <= limit
    ensures |r| < |order| ==> Bytes(order[..|r| + 1]) > limit
    decreases |order|
  {
    if Bytes(order) <= limit then order
    else
      var r := Fitting(order[..|order| - 1], limit);
      assert |r| < |order| - 1 ==> order[..|order| - 1][..|r| + 1] == order[..|r| + 1];
      assert order[..|order|] == order;
      r
  }

  predicate In(order: seq<Entry>, key: Key) { exists i :: 0 <= i < |order| && order[i].key == key }

  lemma Snoc(before: seq<Entry>, last: Entry, key: Key)
    ensures Without(before + [last], key) == Without(before, key) + if last.key == key then [] else [last]
    ensures Bytes(before + [last]) == Bytes(before) + |last.content|
  {
    assert (before + [last])[..|before|] == before;
  }

  lemma {:induction false} WithoutKeeps(order: seq<Entry>, key: Key)
    requires Distinct(order)
    ensures Distinct(Without(order, key))
    ensures forall e :: e in Without(order, key) <==> e in order && e.key != key
    decreases |order|
  {
    if order != [] {
      var before, last := order[..|order| - 1], order[|order| - 1];
      WithoutKeeps(before, key);
      assert order == before + [last];
      Snoc(before, last, key);
      DistinctInit(order);
      LastDistinct(order);
      hide Without;
      forall i | 0 <= i < |Without(before, key)| ensures Without(before, key)[i].key != last.key {
        assert Without(before, key)[i] in before;
      }
    }
  }

  /** What one key's entry takes: at most one entry has the key. */
  lemma {:induction false} BytesWithout(order: seq<Entry>, key: Key, i: nat)
    requires Distinct(order) && i < |order| && order[i].key == key
    ensures Bytes(order) == Bytes(Without(order, key)) + |order[i].content|
    decreases |order|
  {
    var before, last := order[..|order| - 1], order[|order| - 1];
    assert order == before + [last];
    Snoc(before, last, key);
    DistinctInit(order);
    LastDistinct(order);
    hide Distinct, Without, Bytes;
    if i < |before| {
      assert before[i].key == key;
      assert In(before, key);
      BytesWithout(before, key, i);
      Snoc(Without(before, key), last, key);
    } else {
      WithoutAbsent(before, key);
      EmptyRight(before);
    }
  }

  lemma LastDistinct(order: seq<Entry>)
    requires Distinct(order) && order != []
    ensures !In(order[..|order| - 1], order[|order| - 1].key)
  {
  }

  lemma {:induction false} WithoutAbsent(order: seq<Entry>, key: Key)
    requires !In(order, key)
    ensures Without(order, key) == order
    decreases |order|
  {
    if order != [] {
      var before, last := order[..|order| - 1], order[|order| - 1];
      assert order == before + [last];
      assert forall j :: 0 <= j < |before| ==> order[j] == before[j];
      WithoutAbsent(before, key);
      Snoc(before, last, key);
    }
  }

  lemma {:induction false} BytesCons(e: Entry, order: seq<Entry>)
    ensures Bytes([e] + order) == |e.content| + Bytes(order)
    decreases |order|
  {
    if order == [] {
      assert [e] + order == [] + [e];
      Snoc([], e, "");
    } else {
      var before, last := order[..|order| - 1], order[|order| - 1];
      BytesCons(e, before);
      assert [e] + order == ([e] + before) + [last];
      Snoc([e] + before, last, "");
    }
  }

  /** An entry that fits alone survives its own put. */
  lemma FirstSurvives(e: Entry, order: seq<Entry>, limit: nat)
    requires |e.content| <= limit
    ensures Fitting([e] + order, limit) != [] && Fitting([e] + order, limit)[0] == e
  {
    var all := [e] + order;
    assert all[..1] == [] + [e];
    Snoc([], e, "");
    hide Fitting, Bytes;
  }

  // ---- The map over the list ----

  /** Map and list hold the same keys, once each, with the same entries. */
  ghost predicate Indexed(order: seq<Entry>, entries: map<Key, Entry>) {
    && Distinct(order)
    && (forall k :: k in entries ==> entries[k] in order && entries[k].key == k)
    && (forall e :: e in order ==> e.key in entries && entries[e.key] == e)
  }

  lemma Position(order: seq<Entry>, entries: map<Key, Entry>, key: Key) returns (i: nat)
    requires Indexed(order, entries) && key in entries
    ensures i < |order| && order[i] == entries[key] && order[i].key == key
  {
    i :| 0 <= i < |order| && order[i] == entries[key];
  }

  lemma IndexedWithout(order: seq<Entry>, entries: map<Key, Entry>, key: Key)
    requires Indexed(order, entries)
    ensures Indexed(Without(order, key), entries - {key})
  {
    WithoutKeeps(order, key);
    hide Without, Distinct;
  }

  lemma IndexedCons(order: seq<Entry>, entries: map<Key, Entry>, e: Entry)
    requires Indexed(order, entries) && e.key !in entries
    ensures Indexed([e] + order, entries[e.key := e])
  {
    forall x | x in order ensures x.key != e.key {
      assert x.key in entries;
    }
  }

  lemma IndexedInit(order: seq<Entry>, entries: map<Key, Entry>)
    requires Indexed(order, entries) && order != []
    ensures Indexed(order[..|order| - 1], entries - {order[|order| - 1].key})
  {
    var before, last := order[..|order| - 1], order[|order| - 1];
    assert order == before + [last];
    forall k | k in entries - {last.key} ensures entries[k] in before {
      var i := Position(order, entries, k);
      assert i < |before| && before[i] == order[i];
    }
    forall x | x in before ensures x.key != last.key && x in order {
      var i :| 0 <= i < |before| && before[i] == x;
      assert order[i] == x;
    }
    hide Distinct;
    assert Distinct(before) by { DistinctInit(order); }
  }

  lemma DistinctInit(order: seq<Entry>)
    requires Distinct(order) && order != []
    ensures Distinct(order[..|order| - 1])
  {
  }

  class ThumbnailCache {
    const limit: nat
    const maxEntry: nat
    var size: int
    /** The list, most recently used first, and the map of its elements by key. */
    var order: seq<Entry>
    var entries: map<Key, Entry>
    /** For every key the last entry that was admitted. */
    ghost var last: map<Key, Entry>

    ghost predicate Valid()
      reads this
    {
      && Indexed(order, entries) && size == Bytes(order) <= limit
      && (forall k :: k in entries ==> k in last && last[k] == entries[k])
    }

    constructor (limit: nat, maxEntry: nat)
      ensures Valid() && order == [] && last == map[] && this.limit == limit && this.maxEntry == maxEntry
    {
      this.limit, this.maxEntry := limit, maxEntry;
      size, order, entries, last := 0, [], map[], map[];
    }

    /** The last admitted value of the key, which becomes the most recent, or a miss. */
    method Get(key: Key) returns (r: Option<(Text, string)>)
      requires Valid()
      modifies this`order
      ensures Valid()
      ensures r.Some? <==> In(old(order), key)
      ensures r.Some? ==> key in last && r.value == (last[key].content, last[key].contentType) && order == [last[key]] + Without(old(order), key)
      ensures r.None? ==> order == old(order)
    {
      hide Indexed, Bytes, Without, In, Distinct;
      InEntries(order, entries, key);
      if key !in entries {
        return None;
      }
      var entry := entries[key];
      ghost var i := Position(order, entries, key);
      Moved(order, entries, key, i);
      order := [entry] + Without(order, key);
      return Some((entry.content, entry.contentType));
    }

    /** Puts an entry in front; the least recently used ones go until the rest fits.
        A value that is empty or too large is not admitted. */
    method Put(key: Key, content: Text, contentType: string)
      requires Valid()
      modifies this`order, this`size, this`entries, this`last
      ensures Valid()
      ensures content == [] || |content| > maxEntry || |content| > limit ==> order == old(order) && last == old(last)
      ensures 0 < |content| <= maxEntry && |content| <= limit ==>
                && order == Fitting([Entry(key, content, contentType)] + Without(old(order), key), limit)
                && last == old(last)[key := Entry(key, content, contentType)]
                && key in entries && entries[key] == last[key]
    {
      hide Indexed, Bytes, Without, Distinct, Fitting;
      if |content| == 0 || |content| > maxEntry || |content| > limit {
        return;
      }
      var entry := Entry(key, content, contentType);
      if key in entries {
        ghost var i := Position(order, entries, key);
        Removed(order, entries, key, i);
        size := size - |entries[key].content|;
        order := Without(order, key);
        entries := entries - {key};
      } else {
        NotThere(order, entries, key);
      }
      IndexedCons(order, entries, entry);
      BytesCons(entry, order);
      FirstSurvives(entry, order, limit);
      last := last[key := entry];
      order := [entry] + order;
      entries := entries[key := entry];
      size := size + |content|;
      Shrink();
      FirstIndexed(order, entries);
    }

    /** Drops entries from the back until the rest fits. */
    method Shrink()
      requires Indexed(order, entries) && size == Bytes(order) && forall k :: k in entries ==> k in last && last[k] == entries[k]
      modifies this`order, this`size, this`entries
      ensures Valid() && order == Fitting(old(order), limit)
    {
      hide Indexed, Bytes, Fitting, Distinct;
      ghost var all := order;
      TakeAll(all);
      while size > limit
        invariant Indexed(order, entries) && size == Bytes(order) && |order| <= |all| && order == all[..|order|]
        invariant |order| < |all| ==> Bytes(all[..|order| + 1]) > limit
        invariant forall k :: k in entries ==> k in last && last[k] == entries[k]
        decreases |order|
      {
        BytesEmpty(order);
        var oldest := order[|order| - 1];
        IndexedInit(order, entries);
        BytesInit(order);
        InitOf(all, |order|);
        entries := entries - {oldest.key};
        order := order[..|order| - 1];
        size := size - |oldest.content|;
      }
      FittingIs(all, limit, |order|);
    }
  }

  lemma InEntries(order: seq<Entry>, entries: map<Key, Entry>, key: Key)
    requires Indexed(order, entries)
    ensures key in entries <==> In(order, key)
  {
    if key in entries {
      var i := Position(order, entries, key);
    }
    if In(order, key) {
      var i :| 0 <= i < |order| && order[i].key == key;
      assert order[i] in order;
    }
  }

  lemma Moved(order: seq<Entry>, entries: map<Key, Entry>, key: Key, i: nat)
    requires Indexed(order, entries) && key in entries && i < |order| && order[i] == entries[key] && order[i].key == key
    ensures Indexed([entries[key]] + Without(order, key), entries)
            && Bytes([entries[key]] + Without(order, key)) == Bytes(order)
  {
    Removed(order, entries, key, i);
    BytesCons(entries[key], Without(order, key));
    IndexedCons(Without(order, key), entries - {key}, entries[key]);
    assert (entries - {key})[key := entries[key]] == entries;
    hide *;
  }

  lemma Removed(order: seq<Entry>, entries: map<Key, Entry>, key: Key, i: nat)
    requires Indexed(order, entries) && key in entries && i < |order| && order[i] == entries[key] && order[i].key == key
    ensures Indexed(Without(order, key), entries - {key})
            && Bytes(order) == Bytes(Without(order, key)) + |entries[key].content|
  {
    IndexedWithout(order, entries, key);
    BytesWithout(order, key, i);
    hide *;
  }

  lemma NotThere(order: seq<Entry>, entries: map<Key, Entry>, key: Key)
    requires Indexed(order, entries) && key !in entries
    ensures Without(order, key) == order
  {
    InEntries(order, entries, key);
    WithoutAbsent(order, key);
  }

  lemma TakeAll(all: seq<Entry>)
    ensures all[..|all|] == all
  {
  }

  lemma BytesEmpty(order: seq<Entry>)
    ensures order == [] ==> Bytes(order) == 0
  {
  }

  lemma BytesInit(order: seq<Entry>)
    requires order != []
    ensures Bytes(order) == Bytes(order[..|order| - 1]) + |order[|order| - 1].content|
  {
  }

  lemma InitOf(all: seq<Entry>, n: nat)
    requires 0 < n <= |all|
    ensures all[..n][..n - 1] == all[..n - 1]
  {
  }

  /** The longest fitting prefix is the only one that the loop can stop at. */
  lemma {:induction false} FittingIs(all: seq<Entry>, limit: nat, n: nat)
    requires n <= |all| && Bytes(all[..n]) <= limit && (n < |all| ==> Bytes(all[..n + 1]) > limit)
    ensures Fitting(all, limit) == all[..n]
    decreases |all|
  {
    if n == |all| {
      assert all[..n] == all;
    } else {
      BytesGrow(all, n + 1, |all|);
      assert all[..|all|] == all;
      var before := all[..|all| - 1];
      assert before[..n] == all[..n];
      if n < |before| { assert before[..n + 1] == all[..n + 1]; }
      FittingIs(before, limit, n);
    }
  }

  lemma {:induction false} BytesGrow(all: seq<Entry>, a: nat, b: nat)
    requires a <= b <= |all|
    ensures Bytes(all[..a]) <= Bytes(all[..b])
    decreases b
  {
    if a < b {
      BytesGrow(all, a, b - 1);
      BytesInit(all[..b]);
      assert all[..b][..b - 1] == all[..b - 1];
    }
  }

  lemma FirstIndexed(order: seq<Entry>, entries: map<Key, Entry>)
    requires Indexed(order, entries)
    ensures order != [] ==> order[0].key in entries && entries[order[0].key] == order[0]
  {
  }
}
