/** The disk cache of generated images (internal/agent/preview_disk.go): quotas by
    bytes and entries, least recently used eviction, unlinks and renames that may
    fail, and records that check themselves. */
module PreviewDisk {
  import opened Prelude

  const HEADER := 69
  const TTL := 30 * 24 * 3600

  /** A file name is the hexadecimal form of a key hash; the hash stands for it. */
  type Name = Text

  datatype Entry = Entry(size: nat, used: int)

  datatype File = File(data: Text, modified: int, sound: bool)

  datatype Mime = Jpeg | Png

  // ---- Records ----

  const MAGIC: Text := [75, 80, 86, 49]

  function MimeCode(m: Mime): Byte { if m.Jpeg? then 1 else 2 }

  function Record(sha: Text -> Text, hash: Text, mime: Mime, body: Text): Text {
    [75, 80, 86, 49] + [MimeCode(mime)] + hash + sha(body) + body
  }

  ghost predicate Digest(sha: Text -> Text) { forall x :: |sha(x)| == 32 }

  /** What a read accepts. */
  function Parse(sha: Text -> Text, itemBytes: nat, hash: Text, data: Text): Option<(Text, Mime)> {
    if |data| <= HEADER || |data| > itemBytes + HEADER || data[..4] != MAGIC || data[5..37] != hash then None
    else if data[4] != 1 && data[4] != 2 then None
    else if data[37..69] != sha(data[69..]) then None
    else Some((data[69..], if data[4] == 2 then Png else Jpeg))
  }

  /** A read gives a body and a type exactly when the file is the record written for
      that key with them: a wrong key hash, checksum, type or length is a miss. */
  lemma RecordExact(sha: Text -> Text, itemBytes: nat, hash: Text, data: Text, body: Text, mime: Mime)
    requires Digest(sha) && |hash| == 32
    ensures Parse(sha, itemBytes, hash, data) == Some((body, mime))
            <==> 0 < |body| <= itemBytes && data == Record(sha, hash, mime, body)
  {
    if |data| > HEADER {
      assert data == data[..4] + [data[4]] + data[5..37] + data[37..69] + data[69..];
    }
    var r := Record(sha, hash, mime, body);
    assert |sha(body)| == 32;
    assert |r| == HEADER + |body|;
    RecordParts([75, 80, 86, 49], MimeCode(mime), hash, sha(body), body);
  }

  lemma RecordParts(a: Text, b: Byte, c: Text, d: Text, e: Text)
    requires |a| == 4 && |c| == 32 && |d| == 32
    ensures var r := a + [b] + c + d + e;
            |r| == HEADER + |e| && r[..4] == a && r[4] == b && r[5..37] == c && r[37..69] == d && r[69..] == e
  {
  }

  // ---- Accounting ----

  type Index = map<Name, Entry>

  ghost function Total(entries: Index): nat
    decreases |entries|
  {
    if entries == map[] then 0
    else
      var n :| n in entries;
      Shrinks(entries, n);
      entries[n].size + Total(entries - {n})
  }

  lemma Shrinks(entries: Index, n: Name)
    requires n in entries
    ensures |entries - {n}| == |entries| - 1
  {
    assert entries.Keys == (entries - {n}).Keys + {n};
  }

  lemma {:induction false} TotalWithout(entries: Index, n: Name)
    requires n in entries
    ensures Total(entries) == Total(entries - {n}) + entries[n].size
    decreases |entries|
  {
    Shrinks(entries, n);
    var m :| m in entries && Total(entries) == entries[m].size + Total(entries - {m});
    if m != n {
      Shrinks(entries, m);
      TotalWithout(entries - {m}, n);
      TotalWithout(entries - {n}, m);
      assert entries - {m} - {n} == entries - {n} - {m};
    }
  }

  lemma TotalWith(entries: Index, n: Name, e: Entry)
    ensures Total(entries[n := e]) == Total(entries) + e.size - (if n in entries then entries[n].size else 0)
    ensures |entries[n := e]| == |entries| + if n in entries then 0 else 1
  {
    var after := entries[n := e];
    TotalWithout(after, n);
    assert after - {n} == entries - {n};
    Shrinks(after, n);
    if n in entries {
      TotalWithout(entries, n);
      Shrinks(entries, n);
    } else {
      assert entries - {n} == entries;
    }
  }

  /** Not used for thirty days. */
  ghost predicate Expired(e: Entry, now: int) { now - e.used > 30 * 24 * 60 * 60 }

  /** What happened to the entries besides `keep`: they only leave, and each that
      left was used no later than any that stayed and has not expired. */
  ghost predicate Evicted(before: Index, after: Index, keep: Name, now: int) {
    && (forall n :: n in after && n != keep ==> n in before && after[n] == before[n])
    && (forall n, m :: n in before && n !in after && n != keep && m in after && m != keep && !Expired(after[m], now)
          ==> before[n].used <= after[m].used)
  }

  /** Pruning within the quotas removes only expired entries. */
  lemma PrunedEvicted(before: Index, after: Index, keep: Name, now: int)
    requires forall n :: n in after ==> n in before && after[n] == before[n]
    requires forall n :: n in before && n !in after ==> Expired(before[n], now)
    ensures Evicted(before, after, keep, now)
  {
  }

  lemma VictimEvicted(before: Index, after: Index, keep: Name, now: int, victim: Name)
    requires Evicted(before, after, keep, now) && victim in after && victim != keep
    requires forall n :: n in after && n != keep ==> after[victim].used <= after[n].used
    ensures Evicted(before, after - {victim}, keep, now)
  {
  }

  lemma PublishedEvicted(before: Index, after: Index, keep: Name, now: int, e: Entry)
    requires Evicted(before, after, keep, now)
    ensures Evicted(before, after[keep := e], keep, now)
  {
  }

  lemma TotalAlone(entries: Index, name: Name)
    requires entries.Keys - {name} == {}
    ensures Total(entries) == (if name in entries then entries[name].size else 0) && |entries| == if name in entries then 1 else 0
  {
    if name in entries {
      TotalWithout(entries, name);
      Shrinks(entries, name);
      assert (entries - {name}).Keys == {};
      assert entries - {name} == map[];
    } else {
      assert entries.Keys == {};
      assert entries == map[];
    }
  }

  /** A name found when the cache directory is opened. */
  datatype Item = Item(name: Name, temporary: bool, preview: bool, stat: bool, private: bool, size: nat, modified: int)

  predicate Usable(item: Item, itemBytes: nat, now: int) {
    item.preview && !item.temporary && item.stat && item.private && HEADER < item.size <= itemBytes + HEADER && now - item.modified <= TTL
  }

  /** The index of all usable names, with their times of change as last uses. */
  ghost function Listed(items: seq<Item>, itemBytes: nat, now: int): Index {
    if items == [] then map[]
    else
      var item, before := items[|items| - 1], Listed(items[..|items| - 1], itemBytes, now);
      if Usable(item, itemBytes, now) then before[item.name := Entry(item.size, item.modified)] else before
  }

  lemma ListedNext(items: seq<Item>, k: nat, itemBytes: nat, now: int)
    requires k < |items|
    ensures Listed(items[..k + 1], itemBytes, now)
            == if Usable(items[k], itemBytes, now) then Listed(items[..k], itemBytes, now)[items[k].name := Entry(items[k].size, items[k].modified)]
               else Listed(items[..k], itemBytes, now)
  {
    assert items[..k + 1][..k] == items[..k];
  }

  lemma {:induction false} ListedFresh(items: seq<Item>, itemBytes: nat, now: int)
    ensures forall n :: n in Listed(items, itemBytes, now) ==> !Expired(Listed(items, itemBytes, now)[n], now)
    decreases |items|
  {
    if items != [] { ListedFresh(items[..|items| - 1], itemBytes, now); }
  }

  lemma NoneExpired(before: Index, after: Index, now: int)
    requires forall n :: n in after ==> n in before && after[n] == before[n]
    ensures (forall n :: n in before && n !in after ==> Expired(before[n], now)) && (forall n :: n in before ==> !Expired(before[n], now)) ==> after == before
  {
  }

  /** The file holds the record of this body and type, whole, private and fresh. */
  ghost predicate Intact(sha: Text -> Text, itemBytes: nat, hash: Text, entry: Entry, file: File, body: Text,
                         mime: Mime, now: int) {
    && 0 < |body| <= itemBytes && file.data == Record(sha, hash, mime, body)
    && file.sound && entry.size == |body| + HEADER && now - file.modified <= TTL
  }

  class PreviewDisk {
    const sha: Text -> Text
    const schema: Text
    const limit: int
    const count: int
    const itemBytes: nat
    var entries: Index
    var bytes: int
    /** The directory; other processes may change it between operations. */
    var files: map<Name, File>

    ghost predicate Accounted()
      reads this
    {
      Digest(sha) && bytes == Total(entries)
    }

    ghost predicate Valid()
      reads this
    {
      Accounted() && bytes <= limit && |entries| <= count
    }

    constructor (sha: Text -> Text, schema: Text, limit: nat, count: nat, itemBytes: nat)
      requires Digest(sha)
      ensures Valid() && entries == map[] && this.limit == limit && this.count == count && this.sha == sha
              && this.schema == schema
      ensures this.itemBytes == itemBytes
    {
      this.sha, this.schema, this.limit, this.count, this.itemBytes := sha, schema, limit, count, itemBytes;
      entries, bytes, files := map[], 0, map[];
    }

    function Hash(key: Text): Text { sha(schema + [0] + key) }

    /** Unlinks a file. A missing file counts as unlinked; any other failure leaves
        the entry accounted for. */
    method Remove(name: Name) returns (ghost failed: bool)
      requires Accounted()
      modifies this`entries, this`bytes, this`files
      ensures Accounted()
      ensures failed ==> entries == old(entries) && bytes == old(bytes) && files == old(files)
      ensures !failed ==> entries == old(entries) - {name} && files == old(files) - {name}
      ensures bytes <= old(bytes) && |entries| <= |old(entries)|
      ensures !failed && name in old(entries) ==> |entries| < |old(entries)|
    {
      var error: bool := *;
      failed := error;
      if error {
        return;
      }
      files := files - {name};
      if name in entries {
        TotalWithout(entries, name);
        Shrinks(entries, name);
        hide Total;
        bytes := bytes - entries[name].size;
        entries := entries - {name};
      } else {
        assert entries - {name} == entries;
      }
    }

    /** The least recently used of some entries. */
    method Oldest(names: set<Name>) returns (r: Option<Name>)
      requires names <= entries.Keys
      ensures r.None? <==> names == {}
      ensures r.Some? ==> r.value in names && forall n :: n in names ==> entries[r.value].used <= entries[n].used
    {
      r := None;
      var todo := names;
      while todo != {}
        invariant todo <= names
        invariant r.None? ==> todo == names
        invariant r.Some? ==> r.value in names && forall n :: n in names - todo ==> entries[r.value].used <= entries[n].used
        decreases |todo|
      {
        var n :| n in todo;
        if r.None? || entries[n].used < entries[r.value].used {
          r := Some(n);
        }
        todo := todo - {n};
      }
    }

    /** Removes entries in order of use until the quotas hold and the next one has
        not expired. What should have gone and did not is what could not be unlinked. */
    method Prune(now: int) returns (ghost failed: set<Name>)
      requires Accounted()
      modifies this`entries, this`bytes, this`files
      ensures Accounted() && bytes <= old(bytes) && |entries| <= |old(entries)|
      ensures forall n :: n in entries ==> n in old(entries) && entries[n] == old(entries)[n]
      ensures forall n :: n in entries && Expired(entries[n], now) ==> n in failed
      ensures bytes > limit || |entries| > count ==> entries.Keys <= failed
      ensures old(bytes) <= limit && |old(entries)| <= count ==>
                forall n :: n in old(entries) && n !in entries ==> Expired(old(entries)[n], now)
      ensures forall n, m :: n in old(entries) && n !in entries && m in entries && m !in failed ==> old(entries)[n].used <= entries[m].used
    {
      hide Total;
      failed := {};
      var todo := entries.Keys;
      while todo != {}
        invariant Accounted() && bytes <= old(bytes) && |entries| <= |old(entries)|
        invariant todo <= entries.Keys && entries.Keys <= todo + failed
        invariant forall n :: n in entries ==> n in old(entries) && entries[n] == old(entries)[n]
        invariant old(bytes) <= limit && |old(entries)| <= count ==>
                    forall n :: n in old(entries) && n !in entries ==> Expired(old(entries)[n], now)
        invariant forall n, m :: n in old(entries) && n !in entries && m in todo ==> old(entries)[n].used <= entries[m].used
        decreases |todo|
      {
        var next := Oldest(todo);
        var e := next.value;
        if bytes <= limit && |entries| <= count && now - entries[e].used <= TTL {
          break;
        }
        ghost var failure := Remove(e);
        if failure { failed := failed + {e}; }
        todo := todo - {e};
      }
    }

    /** Makes room for one entry: least recently used others go, one by one. */
    method MakeRoom(name: Name, size: nat, now: int) returns (ok: bool, ghost failed: bool)
      requires Accounted()
      modifies this`entries, this`bytes, this`files
      ensures Accounted() && bytes <= old(bytes) && |entries| <= |old(entries)|
      ensures name in entries <==> name in old(entries)
      ensures name in entries ==> entries[name] == old(entries)[name]
      ensures forall n :: n in entries ==> n in old(entries) && entries[n] == old(entries)[n]
      ensures ok ==> bytes - (if name in entries then entries[name].size else 0) + size <= limit
                     && |entries| + (if name in entries then 0 else 1) <= count
      ensures !ok ==> failed || size > limit || count < 1
      ensures forall before :: Evicted(before, old(entries), name, now) ==> Evicted(before, entries, name, now)
    {
      hide Total, Evicted;
      failed := false;
      var oldSize := if name in entries then entries[name].size else 0;
      var additional := if name in entries then 0 else 1;
      while bytes - oldSize + size > limit || |entries| + additional > count
        invariant Accounted() && bytes <= old(bytes) && |entries| <= |old(entries)| && !failed
        invariant name in entries <==> name in old(entries)
        invariant name in entries ==> entries[name] == old(entries)[name]
        invariant forall n :: n in entries ==> n in old(entries) && entries[n] == old(entries)[n]
        invariant forall before :: Evicted(before, old(entries), name, now) ==> Evicted(before, entries, name, now)
        decreases |entries|
      {
        var victim := Oldest(entries.Keys - {name});
        if victim.None? {
          TotalAlone(entries, name);
          return false, failed;
        }
        ghost var was := entries;
        failed := Remove(victim.value);
        if victim.value in entries {
          return false, failed;
        }
        forall before | Evicted(before, was, name, now) ensures Evicted(before, entries, name, now) {
          VictimEvicted(before, was, name, now, victim.value);
        }
      }
      ok := true;
    }

    /** Stores a record. When it is published the quotas hold with it, and the entries
        that had to go for it were the least recently used ones. */
    method Put(key: Text, body: Text, mime: Option<Mime>, now: int) returns (published: bool, ghost faulted: bool)
      requires Valid()
      modifies this`entries, this`bytes, this`files
      ensures Valid()
      ensures published ==>
                && mime.Some? && 0 < |body| <= itemBytes
                && Hash(key) in entries && entries[Hash(key)] == Entry(|body| + HEADER, now)
                && Hash(key) in files && files[Hash(key)] == File(Record(sha, Hash(key), mime.value, body), now, true)
      ensures !published ==> faulted || mime.None? || body == [] || |body| > itemBytes || |body| + HEADER > limit || count < 1
      ensures Evicted(old(entries), entries, Hash(key), now)
      ensures !published && Hash(key) in entries
              ==> Hash(key) in old(entries) && entries[Hash(key)] == old(entries)[Hash(key)]
    {
      var name := Hash(key);
      hide Total, Evicted, Hash, Record;
      faulted := false;
      PrunedEvicted(entries, entries, name, now);
      if |body| == 0 || |body| > itemBytes || mime.None? {
        return false, false;
      }
      var writeFails: bool := *;
      if writeFails {
        return false, true;
      }
      var record := Record(sha, name, mime.value, body);
      ghost var before := entries;
      ghost var stuck := Prune(now);
      PrunedEvicted(before, entries, name, now);
      var ok;
      ghost var failed;
      ok, failed := MakeRoom(name, |body| + HEADER, now);
      if !ok {
        return false, failed;
      }
      var renameFails: bool := *;
      if renameFails {
        return false, true;
      }
      var entry := Entry(|body| + HEADER, now);
      TotalWith(entries, name, entry);
      PublishedEvicted(before, entries, name, now, entry);
      bytes := bytes + entry.size - if name in entries then entries[name].size else 0;
      files := files[name := File(record, now, true)];
      entries := entries[name := entry];
      return true, false;
    }

    /** Looks a record up. Anything but the very record written for this key is a miss
        and its entry is dropped. */
    method Get(key: Text, now: int) returns (r: Option<(Text, Mime)>, ghost faulted: bool, ghost touched: bool)
      requires Valid()
      modifies this`entries, this`bytes, this`files
      ensures Valid()
      ensures r.Some? ==>
                && Hash(key) in old(entries) && Hash(key) in old(files) && 0 < |r.value.0| <= itemBytes
                && old(files)[Hash(key)].data == Record(sha, Hash(key), r.value.1, r.value.0)
                && entries == old(entries)[Hash(key) := old(entries)[Hash(key)].(used := now)]
                && files == if touched && now - old(files)[Hash(key)].modified >= 3600
                            then old(files)[Hash(key) := old(files)[Hash(key)].(modified := now)] else old(files)
      ensures r.None? ==> entries == old(entries) || entries == old(entries) - {Hash(key)}
      ensures r.None? && !faulted ==> Hash(key) !in entries
      ensures !faulted && Hash(key) in old(entries) && Hash(key) in old(files) ==>
                forall body, mime :: Intact(sha, itemBytes, Hash(key), old(entries)[Hash(key)], old(files)[Hash(key)], body, mime, now) ==> r == Some((body, mime))
    {
      var name := Hash(key);
      assert |name| == 32;
      hide Total, Hash, Record, Parse;
      faulted, touched := false, false;
      if name !in entries {
        return None, false, false;
      }
      var readFails: bool := *;
      if readFails {
        ghost var failed := Remove(name);
        return None, true, false;
      }
      if name !in files || !files[name].sound || |files[name].data| != entries[name].size || now - files[name].modified > TTL {
        LengthIs(sha, name);
        faulted := Remove(name);
        return None, faulted, false;
      }
      forall body, mime ensures Parse(sha, itemBytes, name, files[name].data) == Some((body, mime))
                                <==> 0 < |body| <= itemBytes && files[name].data == Record(sha, name, mime, body) {
        RecordExact(sha, itemBytes, name, files[name].data, body, mime);
      }
      var parsed := Parse(sha, itemBytes, name, files[name].data);
      if parsed.None? {
        faulted := Remove(name);
        return None, faulted, false;
      }
      var touchFails: bool := *;
      TotalWith(entries, name, entries[name].(used := now));
      if now - files[name].modified >= 3600 && !touchFails {
        files := files[name := files[name].(modified := now)];
      }
      entries := entries[name := entries[name].(used := now)];
      return parsed, false, !touchFails;
    }

    /** A use seen elsewhere: only the last use changes. */
    method Touch(key: Text, now: int) returns (ghost touched: bool)
      requires Valid()
      modifies this`entries, this`files
      ensures Valid() && entries.Keys == old(entries).Keys
      ensures forall n :: n in entries ==> entries[n] == if n == Hash(key) then old(entries)[n].(used := now) else old(entries)[n]
      ensures var name := Hash(key);
              files == if touched && name in old(entries) && name in old(files) && now / 3600 > old(entries)[name].used / 3600
                          && old(files)[name].sound && |old(files)[name].data| == old(entries)[name].size
                       then old(files)[name := old(files)[name].(modified := now)] else old(files)
    {
      hide Total, Hash;
      touched := false;
      var name := Hash(key);
      if name !in entries {
        return;
      }
      var entry := entries[name];
      var persists: bool := *;
      touched := persists;
      TotalWith(entries, name, entry.(used := now));
      entries := entries[name := entry.(used := now)];
      if now / 3600 > entry.used / 3600 && persists && name in files && files[name].sound && |files[name].data| == entry.size {
        files := files[name := files[name].(modified := now)];
      }
    }

    /** Builds the index from a directory with distinct names. Too many names, or
        more than the quotas after pruning, turn the cache off. */
    method Recover(items: seq<Item>, now: int) returns (ok: bool)
      requires Accounted() && entries == map[] && count >= 0
      requires forall i, j :: 0 <= i < j < |items| ==> items[i].name != items[j].name
      modifies this`entries, this`bytes, this`files
      ensures ok ==> Valid()
      ensures |items| > 2 * count ==> !ok && entries == map[]
      ensures |items| <= 2 * count ==> (ok <==> bytes <= limit && |entries| <= count)
      ensures |items| <= 2 * count && Total(Listed(items, itemBytes, now)) <= limit
              && |Listed(items, itemBytes, now)| <= count ==>
                ok && entries == Listed(items, itemBytes, now)
      ensures ok ==> forall n :: n in entries ==> exists i :: 0 <= i < |items| && Usable(items[i], itemBytes, now)
                                                          && n == items[i].name
                                                          && entries[n] == Entry(items[i].size, items[i].modified)
    {
      hide Total;
      if |items| > 2 * count {
        return false;
      }
      for k := 0 to |items|
        invariant Accounted() && entries == Listed(items[..k], itemBytes, now)
        invariant forall n :: n in entries ==> exists i :: 0 <= i < k && Usable(items[i], itemBytes, now)
                                                           && n == items[i].name
                                                           && entries[n] == Entry(items[i].size, items[i].modified)
      {
        var item := items[k];
        ListedNext(items, k, itemBytes, now);
        if item.temporary {
          var removed: bool := *;
          if removed {
            files := files - {item.name};
          }
          continue;
        }
        if !item.preview || !item.stat {
          continue;
        }
        if !item.private || item.size <= HEADER || item.size > itemBytes + HEADER || now - item.modified > TTL {
          var removed: bool := *;
          if removed {
            files := files - {item.name};
          }
          continue;
        }
        TotalWith(entries, item.name, Entry(item.size, item.modified));
        bytes := bytes + item.size;
        entries := entries[item.name := Entry(item.size, item.modified)];
      }
      assert items[..|items|] == items;
      ListedFresh(items, itemBytes, now);
      ghost var listed := entries;
      ghost var stuck := Prune(now);
      NoneExpired(listed, entries, now);
      ok := bytes <= limit && |entries| <= count;
    }
  }

  /** What was just stored is read back as it was, unless input or output fails. */
  method PutThenGet(disk: PreviewDisk, key: Text, body: Text, mime: Mime, stored: int, read: int)
    returns (r: Option<(Text, Mime)>, ghost faulted: bool)
    requires disk.Valid() && read - stored <= TTL
    modifies disk
    ensures disk.Valid()
    ensures !faulted && 0 < |body| <= disk.itemBytes && |body| + HEADER <= disk.limit && disk.count >= 1
            ==> r == Some((body, mime))
  {
    var published;
    ghost var putFault, getFault;
    published, putFault := disk.Put(key, body, Some(mime), stored);
    hide *;
    if published {
      IntactIs(disk.sha, disk.itemBytes, disk.Hash(key), disk.entries[disk.Hash(key)], disk.files[disk.Hash(key)], body, mime, read);
    }
    ghost var touched;
    r, getFault, touched := disk.Get(key, read);
    faulted := putFault || getFault;
  }

  lemma IntactIs(sha: Text -> Text, itemBytes: nat, hash: Text, entry: Entry, file: File, body: Text, mime: Mime,
                 now: int)
    requires 0 < |body| <= itemBytes && file.data == Record(sha, hash, mime, body)
    requires file.sound && entry.size == |body| + HEADER && now - file.modified <= TTL
    ensures Intact(sha, itemBytes, hash, entry, file, body, mime, now)
  {
  }

  lemma LengthIs(sha: Text -> Text, hash: Text)
    requires Digest(sha) && |hash| == 32
    ensures forall mime, body :: |Record(sha, hash, mime, body)| == HEADER + |body|
  {
  }
}
