/** The shard: one archive of entries, indexed in place and never taken apart. */
module Shard {
  import opened ModuleGraph
  import opened CachedProgram

  type Byte = x: int | 0 <= x < 256
  type Blob = seq<Byte>
  type Key = nat
  type Build = nat

  datatype Held = Held(verify: nat, blob: Blob)

  /** An entry as the archive holds it: the blob is a range of the archive's own bytes. */
  datatype Located = Located(key: Key, verify: nat, build: Build, off: nat, len: nat)

  datatype Entry = Entry(key: Key, verify: nat, build: Build, blob: Blob)

  /** A shard file: an archive that validates, or something that does not. */
  datatype Image = Unreadable | Archive(bytes: seq<Byte>, table: seq<Located>)

  ghost predicate InBounds(bytes: seq<Byte>, table: seq<Located>) {
    forall i | 0 <= i < |table| :: table[i].off + table[i].len <= |bytes|
  }

  ghost predicate KeysDiffer(table: seq<Located>, build: Build) {
    forall i, j | 0 <= i < j < |table| && table[i].build == build && table[j].build == build :: table[i].key != table[j].key
  }

  /** What validation checks, and what every writer leaves. */
  ghost predicate Sound(file: Option<Image>) {
    file.Some? && file.value.Archive? ==> InBounds(file.value.bytes, file.value.table) && forall b: Build :: KeysDiffer(file.value.table, b)
  }

  function HeldAt(bytes: seq<Byte>, l: Located): Held {
    Held(l.verify, if l.off + l.len <= |bytes| then bytes[l.off..l.off + l.len] else [])
  }

  /** The entries of one build, the last one of a key winning. */
  function Indexed(bytes: seq<Byte>, table: seq<Located>, build: Build): map<Key, Held> {
    if table == [] then map[]
    else
      var last := table[|table|-1];
      var rest := Indexed(bytes, table[..|table|-1], build);
      if last.build == build then rest[last.key := HeldAt(bytes, last)] else rest
  }

  function Contents(file: Option<Image>, build: Build): map<Key, Held> {
    if file.None? || file.value.Unreadable? then map[] else Indexed(file.value.bytes, file.value.table, build)
  }

  /** Some entry of `build` in the table holds `k` with value `x`. */
  ghost predicate Lists(bytes: seq<Byte>, table: seq<Located>, build: Build, k: Key, x: Held) {
    exists i :: 0 <= i < |table| && table[i].build == build && table[i].key == k && HeldAt(bytes, table[i]) == x
  }

  lemma {:induction false} IndexedLists(bytes: seq<Byte>, table: seq<Located>, build: Build, k: Key)
    ensures k in Indexed(bytes, table, build) ==> Lists(bytes, table, build, k, Indexed(bytes, table, build)[k])
    ensures k !in Indexed(bytes, table, build) ==> forall x :: !Lists(bytes, table, build, k, x)
  {
    if table != [] {
      var rest := table[..|table|-1];
      IndexedLists(bytes, rest, build, k);
      var last := table[|table|-1];
      if last.build == build && last.key == k {
        assert Lists(bytes, table, build, k, HeldAt(bytes, last));
      } else if k in Indexed(bytes, rest, build) {
        var i :| 0 <= i < |rest| && rest[i].build == build && rest[i].key == k && HeldAt(bytes, rest[i]) == Indexed(bytes, rest, build)[k];
        assert table[i] == rest[i];
      } else {
        forall x ensures !Lists(bytes, table, build, k, x) {
          if Lists(bytes, table, build, k, x) {
            var i :| 0 <= i < |table| && table[i].build == build && table[i].key == k && HeldAt(bytes, table[i]) == x;
            assert rest[i] == table[i];
            assert Lists(bytes, rest, build, k, x);
          }
        }
      }
    }
  }

  // ── The shard in memory ──────────────────────────────────────────────────

  /** The entries a process can look up: its own additions shadow what it read. */
  function Live(disk: map<Key, Held>, added: map<Key, Held>): map<Key, Held> {
    disk + added
  }

  datatype Range = Range(verify: nat, off: nat, len: nat)
  datatype Item = Item(key: Key, verify: nat, blob: Blob)

  predicate Within(bytes: seq<Byte>, r: Range) { r.off + r.len <= |bytes| }

  function Slice(bytes: seq<Byte>, r: Range): Held {
    Held(r.verify, if Within(bytes, r) then bytes[r.off..r.off + r.len] else [])
  }

  /** The blobs that an index of ranges stands for. */
  function Resolved(bytes: seq<Byte>, disk: map<Key, Range>): map<Key, Held> {
    map k | k in disk :: Slice(bytes, disk[k])
  }

  lemma ResolvedMore(bytes: seq<Byte>, disk: map<Key, Range>, k: Key, r: Range)
    ensures Resolved(bytes, disk[k := r]) == Resolved(bytes, disk)[k := Slice(bytes, r)]
  {
  }

  class ShardMem {
    var backing: seq<Byte>
    var disk: map<Key, Range>
    var added: map<Key, Held>
    var dirty: bool
    var stamp: nat

    /** Every range lies within the bytes that were read. */
    ghost predicate Valid()
      reads this
    {
      forall k | k in disk :: Within(backing, disk[k])
    }

    function OnDisk(): map<Key, Held>
      reads this
    {
      Resolved(backing, disk)
    }

    /** load_shard_indexed: index the file without taking it apart. */
    constructor Indexing(file: Option<Image>, build: Build, stamp: nat)
      requires Sound(file)
      ensures Valid() && OnDisk() == Contents(file, build) && added == map[] && !dirty && this.stamp == stamp
    {
      var bytes, index := [], map[];
      if file.Some? && file.value.Archive? {
        bytes := file.value.bytes;
        index := IndexEntries(bytes, file.value.table, build);
      }
      backing, disk, added, dirty := bytes, index, map[], false;
      this.stamp := stamp;
    }

    method Get(key: Key) returns (r: Option<Held>)
      requires Valid()
      ensures var live := Live(OnDisk(), added); r == if key in live then Some(live[key]) else None
    {
      if key in added { return Some(added[key]); }
      if key !in disk { return None; }
      var range := disk[key];
      r := Some(Held(range.verify, backing[range.off..range.off + range.len]));
    }

    /** Every live entry once, additions first. */
    method Iter() returns (items: seq<Item>)
      requires Valid()
      ensures Listed(items, Live(OnDisk(), added), Live(OnDisk(), added).Keys)
    {
      ghost var live := Live(OnDisk(), added);
      items := ListHeld([], added, {}, live);
      var rest := map k | k in disk && k !in added :: Slice(backing, disk[k]);
      assert {} + added.Keys == added.Keys;
      items := ListHeld(items, rest, added.Keys, live);
      assert added.Keys + rest.Keys == live.Keys;
    }

    /** store: reaches the disk at the next flush, not before. */
    method Store(key: Key, held: Held)
      requires Valid()
      modifies this
      ensures Valid() && OnDisk() == old(OnDisk()) && stamp == old(stamp) && dirty
      ensures added == old(added)[key := held]
    {
      added := added[key := held];
      dirty := true;
    }
  }

  /** The items are the entries of `live` under `keys`, each once. */
  ghost predicate Listed(items: seq<Item>, live: map<Key, Held>, keys: set<Key>) {
    && (forall i, j | 0 <= i < j < |items| :: items[i].key != items[j].key)
    && (forall k | k in keys :: exists i :: 0 <= i < |items| && items[i].key == k)
    && (forall i | 0 <= i < |items| :: items[i].key in keys && items[i].key in live && Held(items[i].verify, items[i].blob) == live[items[i].key])
  }

  /** Append the entries of `some`, in whatever order the map gives them. */
  method ListHeld(before: seq<Item>, some: map<Key, Held>, ghost had: set<Key>, ghost live: map<Key, Held>)
    returns (items: seq<Item>)
    requires forall k | k in some :: k in live && live[k] == some[k]
    requires Listed(before, live, had) && had !! some.Keys
    ensures Listed(items, live, had + some.Keys)
  {
    items := before;
    var keys := some.Keys;
    while keys != {}
      invariant keys <= some.Keys && Listed(items, live, had + (some.Keys - keys))
      decreases |keys|
    {
      var k :| k in keys;
      ListOne(items, live, had + (some.Keys - keys), k, some[k]);
      assert had + (some.Keys - keys) + {k} == had + (some.Keys - (keys - {k}));
      items := items + [Item(k, some[k].verify, some[k].blob)];
      keys := keys - {k};
    }
    assert some.Keys - {} == some.Keys;
  }

  lemma IndexedMore(bytes: seq<Byte>, table: seq<Located>, build: Build, i: nat)
    requires i < |table|
    ensures Indexed(bytes, table[..i + 1], build)
      == if table[i].build == build then Indexed(bytes, table[..i], build)[table[i].key := HeldAt(bytes, table[i])]
         else Indexed(bytes, table[..i], build)
  {
    assert table[..i + 1][..i] == table[..i];
  }

  method IndexEntries(bytes: seq<Byte>, table: seq<Located>, build: Build) returns (disk: map<Key, Range>)
    requires InBounds(bytes, table)
    ensures forall k | k in disk :: Within(bytes, disk[k])
    ensures Resolved(bytes, disk) == Indexed(bytes, table, build)
  {
    disk := map[];
    assert Resolved(bytes, disk) == Indexed(bytes, table[..0], build);
    hide Resolved, Indexed;
    for i := 0 to |table|
      invariant forall k | k in disk :: Within(bytes, disk[k])
      invariant Resolved(bytes, disk) == Indexed(bytes, table[..i], build)
    {
      var e := table[i];
      IndexedMore(bytes, table, build, i);
      assert HeldAt(bytes, e) == Slice(bytes, Range(e.verify, e.off, e.len));
      if e.build == build {
        ResolvedMore(bytes, disk, e.key, Range(e.verify, e.off, e.len));
        disk := disk[e.key := Range(e.verify, e.off, e.len)];
      }
    }
    assert table[..|table|] == table;
  }

  lemma ListOne(items: seq<Item>, live: map<Key, Held>, keys: set<Key>, k: Key, held: Held)
    requires Listed(items, live, keys) && k !in keys && k in live && live[k] == held
    ensures Listed(items + [Item(k, held.verify, held.blob)], live, keys + {k})
  {
    var more := items + [Item(k, held.verify, held.blob)];
    forall x | x in keys + {k} ensures exists i :: 0 <= i < |more| && more[i].key == x {
      if x in keys {
        var i :| 0 <= i < |items| && items[i].key == x;
        assert more[i].key == x;
      } else {
        assert more[|items|].key == x;
      }
    }
  }

  // ── Writing the shard ────────────────────────────────────────────────────

  /** write_shard: an archive of exactly these entries, all of one build. */
  method WriteShard(entries: map<Key, Held>, build: Build) returns (image: Image)
    ensures image.Archive? && Sound(Some(image))
    ensures forall b: Build :: Contents(Some(image), b) == if b == build then entries else map[]
  {
    var bytes: seq<Byte>, table: seq<Located> := [], [];
    var keys := entries.Keys;
    while keys != {}
      invariant keys <= entries.Keys && Laid(bytes, table, entries, entries.Keys - keys, build)
      decreases |keys|
    {
      var k :| k in keys;
      var held := entries[k];
      LayOne(bytes, table, entries, entries.Keys - keys, build, k);
      assert entries.Keys - keys + {k} == entries.Keys - (keys - {k});
      table := table + [Located(k, held.verify, build, |bytes|, |held.blob|)];
      bytes := bytes + held.blob;
      keys := keys - {k};
    }
    assert entries.Keys - {} == entries.Keys;
    image := Archive(bytes, table);
    LaidContents(bytes, table, entries, build);
  }

  /** A table entry that locates one of the entries under `keys` within the bytes. */
  ghost predicate Locates(bytes: seq<Byte>, l: Located, entries: map<Key, Held>, keys: set<Key>, build: Build) {
    && l.off + l.len <= |bytes| && l.build == build
    && l.key in keys && l.key in entries && HeldAt(bytes, l) == entries[l.key]
  }

  ghost predicate Names(table: seq<Located>, k: Key) {
    exists i :: 0 <= i < |table| && table[i].key == k
  }

  /** The table locates the entries under `keys`, each once. */
  ghost predicate Laid(bytes: seq<Byte>, table: seq<Located>, entries: map<Key, Held>, keys: set<Key>, build: Build) {
    && (forall i, j | 0 <= i < j < |table| :: table[i].key != table[j].key)
    && (forall i | 0 <= i < |table| :: Locates(bytes, table[i], entries, keys, build))
    && (forall k | k in keys :: Names(table, k))
  }

  lemma LocatesMore(bytes: seq<Byte>, more: seq<Byte>, l: Located, entries: map<Key, Held>, keys: set<Key>,
                    build: Build, k: Key)
    requires Locates(bytes, l, entries, keys, build)
    ensures Locates(bytes + more, l, entries, keys + {k}, build)
  {
    assert (bytes + more)[l.off..l.off + l.len] == bytes[l.off..l.off + l.len];
  }

  lemma LocatesLast(bytes: seq<Byte>, entries: map<Key, Held>, keys: set<Key>, build: Build, k: Key)
    requires k in entries
    ensures var held := entries[k];
      Locates(bytes + held.blob, Located(k, held.verify, build, |bytes|, |held.blob|), entries, keys + {k}, build)
  {
    var blob := entries[k].blob;
    assert (bytes + blob)[|bytes|..|bytes| + |blob|] == blob;
  }

  lemma LayOne(bytes: seq<Byte>, table: seq<Located>, entries: map<Key, Held>, keys: set<Key>, build: Build, k: Key)
    requires Laid(bytes, table, entries, keys, build) && k in entries && k !in keys
    ensures var held := entries[k];
      Laid(bytes + held.blob, table + [Located(k, held.verify, build, |bytes|, |held.blob|)], entries, keys + {k}, build)
  {
    var held := entries[k];
    var last := Located(k, held.verify, build, |bytes|, |held.blob|);
    var bytes1, table1 := bytes + held.blob, table + [last];
    assert forall i | 0 <= i < |table| :: table[i].key in keys;
    LocatesLast(bytes, entries, keys, build, k);
    forall i | 0 <= i < |table| ensures Locates(bytes1, table[i], entries, keys + {k}, build) {
      LocatesMore(bytes, held.blob, table[i], entries, keys, build, k);
    }
    hide Locates;
    forall x | x in keys + {k} ensures Names(table1, x) {
      if x in keys {
        var i :| 0 <= i < |table| && table[i].key == x;
        assert table1[i].key == x;
      } else {
        assert table1[|table|].key == x;
      }
    }
  }

  lemma LaidSound(bytes: seq<Byte>, table: seq<Located>, entries: map<Key, Held>, build: Build)
    requires Laid(bytes, table, entries, entries.Keys, build)
    ensures Sound(Some(Archive(bytes, table)))
  {
    assert InBounds(bytes, table) by {
      forall i | 0 <= i < |table|
        ensures table[i].off + table[i].len <= |bytes|
      {
        assert Locates(bytes, table[i], entries, entries.Keys, build);
      }
    }
    hide Locates, Names;
  }

  lemma LaidKey(bytes: seq<Byte>, table: seq<Located>, entries: map<Key, Held>, build: Build, b: Build, k: Key)
    requires Laid(bytes, table, entries, entries.Keys, build)
    ensures k in Indexed(bytes, table, b) <==> b == build && k in entries
    ensures k in Indexed(bytes, table, b) ==> k in entries && Indexed(bytes, table, b)[k] == entries[k]
  {
    IndexedLists(bytes, table, b, k);
    hide Indexed, HeldAt;
    assert forall i | 0 <= i < |table| :: Locates(bytes, table[i], entries, entries.Keys, build);
    if b == build && k in entries {
      assert Names(table, k);
      var i :| 0 <= i < |table| && table[i].key == k;
      assert Lists(bytes, table, b, k, HeldAt(bytes, table[i]));
    }
  }

  lemma LaidContents(bytes: seq<Byte>, table: seq<Located>, entries: map<Key, Held>, build: Build)
    requires Laid(bytes, table, entries, entries.Keys, build)
    ensures Sound(Some(Archive(bytes, table)))
    ensures forall b: Build :: Contents(Some(Archive(bytes, table)), b) == if b == build then entries else map[]
  {
    LaidSound(bytes, table, entries, build);
    hide Laid, Indexed, Sound;
    forall b: Build ensures Indexed(bytes, table, b) == if b == build then entries else map[] {
      forall k: Key
        ensures k in Indexed(bytes, table, b) <==> b == build && k in entries
        ensures k in Indexed(bytes, table, b) ==> k in entries && Indexed(bytes, table, b)[k] == entries[k] {
        LaidKey(bytes, table, entries, build, b, k);
      }
    }
  }

  /** What a flush writes: what the process holds, and what the file has besides. */
  function Merged(pending: map<Key, Held>, file: map<Key, Held>): map<Key, Held> {
    file + pending
  }

  /** `merged.entry(key).or_insert(...)` for each entry of this build in the file. */
  method MergeFile(pending: map<Key, Held>, file: Option<Image>, build: Build) returns (merged: map<Key, Held>)
    requires Sound(file)
    ensures merged == Merged(pending, Contents(file, build))
  {
    merged := pending;
    if file.None? || file.value.Unreadable? {
      return;
    }
    var bytes, table := file.value.bytes, file.value.table;
    for i := 0 to |table|
      invariant merged == Merged(pending, Indexed(bytes, table[..i], build))
    {
      var e := table[i];
      IndexedMore(bytes, table, build, i);
      if e.build == build {
        NotYetIndexed(bytes, table, build, i);
        if e.key !in merged { merged := merged[e.key := HeldAt(bytes, e)]; }
      }
    }
    assert table[..|table|] == table;
  }

  lemma NotYetIndexed(bytes: seq<Byte>, table: seq<Located>, build: Build, i: nat)
    requires KeysDiffer(table, build) && i < |table| && table[i].build == build
    ensures table[i].key !in Indexed(bytes, table[..i], build)
  {
    IndexedLists(bytes, table[..i], build, table[i].key);
    forall x ensures !Lists(bytes, table[..i], build, table[i].key, x) {
      forall j | 0 <= j < i && table[..i][j].build == build ensures table[..i][j].key != table[i].key {
        assert table[..i][j] == table[j];
      }
    }
  }

  /** The shard file: every commit renames a new image into place and gets a stamp no
      earlier one had. */
  class ShardFile {
    var image: Option<Image>
    var stamp: nat

    constructor ()
      ensures image == None && stamp == 0
    {
      image, stamp := None, 0;
    }

    method Rename(image: Image)
      modifies this
      ensures this.image == Some(image) && stamp == old(stamp) + 1
    {
      this.image := Some(image);
      stamp := stamp + 1;
    }
  }

  /** The first half of a flush: what is to be written, if this process added anything. */
  method TakePending(m: ShardMem) returns (pending: Option<map<Key, Held>>)
    requires m.Valid()
    modifies m`dirty
    ensures !m.dirty
    ensures pending == if old(m.dirty) then Some(Live(m.OnDisk(), m.added)) else None
  {
    if !m.dirty { return None; }
    m.dirty := false;
    var items := m.Iter();
    var held := CollectItems(items, Live(m.OnDisk(), m.added));
    pending := Some(held);
  }

  /** `.collect()` of the listed entries into a map. */
  method CollectItems(items: seq<Item>, ghost live: map<Key, Held>) returns (held: map<Key, Held>)
    requires Listed(items, live, live.Keys)
    ensures held == live
  {
    held := map[];
    for i := 0 to |items|
      invariant forall k | k in held :: k in live && held[k] == live[k]
      invariant forall j | 0 <= j < i :: items[j].key in held
    {
      held := held[items[i].key := Held(items[i].verify, items[i].blob)];
    }
    assert held.Keys == live.Keys;
  }

  /** flush, by a process no other writes beside: the file is left alone if nothing was
      added, and otherwise holds what the process holds together with what it held before. */
  method Flush(m: ShardMem, file: ShardFile, build: Build)
    requires m.Valid() && Sound(file.image)
    requires m.stamp == file.stamp ==> m.OnDisk() == Contents(file.image, build)
    modifies m`dirty, file
    ensures !m.dirty && Sound(file.image)
    ensures !old(m.dirty) ==> file.image == old(file.image) && file.stamp == old(file.stamp)
    ensures old(m.dirty) ==>
      Contents(file.image, build) == Merged(Live(m.OnDisk(), m.added), Contents(old(file.image), build))
    ensures old(m.dirty) ==> forall b: Build | b != build :: Contents(file.image, b) == map[]
  {
    var pending := TakePending(m);
    if pending.None? { return; }
    var merged := pending.value;
    if file.stamp != m.stamp {
      merged := MergeFile(merged, file.image, build);
    }
    assert merged == Merged(pending.value, Contents(file.image, build));
    var image := WriteShard(merged, build);
    file.Rename(image);
  }

  // ── load and store, for source text ──────────────────────────────────────

  /** The two hashes of a source text, each mixed with the build that takes it. */
  datatype Hashes = Hashes(key: (Build, string) -> Key, verify: (Build, string) -> nat)

  /** How a stored program becomes a blob, and how a blob is read back, if it can be. */
  datatype Codec = Codec(encode: Code -> Blob, decode: Blob -> Option<Code>) {
    /** What was encoded decodes to itself, but for the hashes serialization skips. */
    ghost predicate Faithful() {
      forall c :: decode(encode(c)) == Some(CachedProgram.Stored(c))
    }
  }

  function Encoded(hashes: Hashes, codec: Codec, build: Build, src: string, c: Code): Held {
    Held(hashes.verify(build, src), codec.encode(c))
  }

  /** What a lookup of `src` finds: an entry under its key that also has its second hash
      and can be decoded. */
  function Lookup(hashes: Hashes, codec: Codec, build: Build, live: map<Key, Held>, src: string): Option<Code> {
    var key := hashes.key(build, src);
    if key !in live || live[key].verify != hashes.verify(build, src) then None
    else codec.decode(live[key].blob)
  }

  method Store(m: ShardMem, hashes: Hashes, codec: Codec, build: Build, src: string, c: Code)
    requires m.Valid()
    modifies m
    ensures m.Valid() && m.OnDisk() == old(m.OnDisk()) && m.dirty && m.stamp == old(m.stamp)
    ensures m.added == old(m.added)[hashes.key(build, src) := Encoded(hashes, codec, build, src, c)]
  {
    m.Store(hashes.key(build, src), Encoded(hashes, codec, build, src, c));
  }

  /** load: on a hit, the program with every chunk's hash computed again. */
  method Load(m: ShardMem, hashes: Hashes, codec: Codec, h: Hasher, build: Build, src: string) returns (p: Program?)
    requires m.Valid()
    ensures p == null <==> Lookup(hashes, codec, build, Live(m.OnDisk(), m.added), src).None?
    ensures p != null ==> fresh(p) && p.source == src
    ensures p != null ==> p.Value() == Rehashed(h, Lookup(hashes, codec, build, Live(m.OnDisk(), m.added), src).value)
  {
    p := null;
    var held := m.Get(hashes.key(build, src));
    if held.None? || held.value.verify != hashes.verify(build, src) { return; }
    var code := codec.decode(held.value.blob);
    if code.None? { return; }
    p := new Program(code.value, src);
    p.Rehash(h);
  }

  /** A program stored and looked up again by the same process, the last stored under its key. */
  lemma StoredIsFound(hashes: Hashes, codec: Codec, h: Hasher, build: Build, live: map<Key, Held>, src: string, c: Code)
    requires codec.Faithful()
    ensures var r := Lookup(hashes, codec, build, live[hashes.key(build, src) := Encoded(hashes, codec, build, src, c)], src);
      && r.Some? && IsBuilt(h, Rehashed(h, r.value))
      && (Rehashed(h, r.value) == c <==> IsBuilt(h, c))
  {
    RoundTrip(h, c);
  }
}
