/** Many processes, of several builds, sharing one shard file. */
module CacheProtocol {
  import opened ModuleGraph
  import opened CachedProgram
  import opened Shard

  type Pid = nat

  /** What a process holds: the stamp it took, the commit it then read, the entries it
      found there, and the entries it has stored itself. */
  datatype Mem = Mem(stamp: nat, read: nat, disk: map<Key, Held>, added: map<Key, Held>)

  /** Where a process stands. A flush takes its entries, looks at the file's stamp, and
      either writes or first reads the file again; `look` is the commit it saw last. */
  datatype Phase =
    | Outside
    | Stamped(stamp: nat)
    | Running(mem: Mem, dirty: bool)
    | Flushing(mem: Mem)
    | Stale(mem: Mem)
    | Writing(mem: Mem, look: nat, merged: map<Key, Held>)

  datatype Proc = Proc(build: Build, phase: Phase)

  /** A call of `store`. */
  datatype Call = Call(build: Build, src: string, code: Code)

  /** The file as each commit left it, who made the commit, and all that was ever stored.
      The number of a commit is its stamp: no two commits leave the same stamp. */
  datatype System = System(procs: map<Pid, Proc>, files: seq<Option<Image>>, authors: seq<Pid>, stored: set<Call>) {
    function Last(): nat {
      if |files| > 0 then |files| - 1 else 0
    }

    function At(i: nat, build: Build): map<Key, Held> {
      if i < |files| then Contents(files[i], build) else map[]
    }

    function Put(p: Pid, build: Build, phase: Phase): System {
      this.(procs := procs[p := Proc(build, phase)])
    }
  }

  datatype Setup = Setup(hashes: Hashes, codec: Codec)

  datatype Action =
    | TakeStamp
    | ReadFile
    | StoreOne(src: string, code: Code)
    | BeginFlush
    | LookAtStamp
    | ReadAgain
    | Rename(image: Image)

  /** What the process `p` may do next. An image to be renamed into place is one that
      `WriteShard` makes of the merged entries. */
  ghost predicate Enabled(s: System, p: Pid, a: Action) {
    p in s.procs && |s.files| > 0 &&
    match (s.procs[p].phase, a)
    case (Outside, TakeStamp) => true
    case (Stamped(_), ReadFile) => true
    case (Running(_, _), StoreOne(_, _)) => true
    case (Running(_, dirty), BeginFlush) => dirty
    case (Flushing(_), LookAtStamp) => true
    case (Stale(_), ReadAgain) => true
    case (Writing(_, _, merged), Rename(image)) =>
      Sound(Some(image)) && forall b: Build :: Contents(Some(image), b) == if b == s.procs[p].build then merged else map[]
    case _ => false
  }

  ghost function Do(w: Setup, s: System, p: Pid, a: Action): System
    requires Enabled(s, p, a)
  {
    var build, phase := s.procs[p].build, s.procs[p].phase;
    match a
    case TakeStamp => s.Put(p, build, Stamped(s.Last()))
    case ReadFile => s.Put(p, build, Running(Mem(phase.stamp, s.Last(), s.At(s.Last(), build), map[]), false))
    case StoreOne(src, code) =>
      var mem := phase.mem.(added := phase.mem.added[w.hashes.key(build, src) := Encoded(w.hashes, w.codec, build, src, code)]);
      s.Put(p, build, Running(mem, true)).(stored := s.stored + {Call(build, src, code)})
    case BeginFlush => s.Put(p, build, Flushing(phase.mem))
    case LookAtStamp =>
      s.Put(p, build, if phase.mem.stamp == s.Last() then Writing(phase.mem, s.Last(), Live(phase.mem.disk, phase.mem.added)) else Stale(phase.mem))
    case ReadAgain =>
      s.Put(p, build, Writing(phase.mem, s.Last(), Merged(Live(phase.mem.disk, phase.mem.added), s.At(s.Last(), build))))
    case Rename(image) =>
      s.Put(p, build, Running(phase.mem, false)).(files := s.files + [Some(image)], authors := s.authors + [p])
  }

  // ── What every interleaving keeps ────────────────────────────────────────

  /** Each entry was stored, by that build, for a source with that key and second hash. */
  ghost predicate Recorded(w: Setup, stored: set<Call>, build: Build, entries: map<Key, Held>) {
    forall k | k in entries :: exists c: Call ::
      c in stored && c.build == build && w.hashes.key(build, c.src) == k && entries[k] == Encoded(w.hashes, w.codec, build, c.src, c.code)
  }

  ghost predicate FilesOk(w: Setup, s: System) {
    && |s.files| > 0 && |s.authors| == |s.files|
    && (forall i | 0 <= i < |s.files| :: Sound(s.files[i]))
    && (forall i: nat, b: Build {:trigger s.At(i, b)} | i < |s.files| :: Recorded(w, s.stored, b, s.At(i, b)))
  }

  ghost predicate MemOk(w: Setup, s: System, build: Build, mem: Mem) {
    && mem.stamp <= mem.read < |s.files|
    && mem.disk == s.At(mem.read, build)
    && Recorded(w, s.stored, build, mem.added)
  }

  ghost predicate ProcOk(w: Setup, s: System, p: Pid, proc: Proc) {
    match proc.phase
    case Outside => true
    case Stamped(stamp) => stamp < |s.files|
    case Running(mem, _) => MemOk(w, s, proc.build, mem)
    case Flushing(mem) => MemOk(w, s, proc.build, mem)
    case Stale(mem) => MemOk(w, s, proc.build, mem)
    case Writing(mem, look, merged) =>
      && MemOk(w, s, proc.build, mem) && look < |s.files|
      && merged == Merged(Live(mem.disk, mem.added), s.At(look, proc.build))
      && (forall j | look < j < |s.files| && j < |s.authors| :: s.authors[j] != p)
  }

  ghost predicate SystemOk(w: Setup, s: System) {
    && FilesOk(w, s)
    && forall p | p in s.procs :: ProcOk(w, s, p, s.procs[p])
  }

  lemma RecordedMerge(w: Setup, stored: set<Call>, build: Build, a: map<Key, Held>, b: map<Key, Held>)
    requires Recorded(w, stored, build, a) && Recorded(w, stored, build, b)
    ensures Recorded(w, stored, build, a + b)
  {
    forall k | k in a + b ensures exists c: Call ::
      c in stored && c.build == build && w.hashes.key(build, c.src) == k && (a + b)[k] == Encoded(w.hashes, w.codec, build, c.src, c.code) {
      assert (a + b)[k] == if k in b then b[k] else a[k];
    }
  }

  /** With the stamp it took, a process knows that the file is the one it read. */
  lemma StampTells(w: Setup, s: System, build: Build, mem: Mem)
    requires FilesOk(w, s) && MemOk(w, s, build, mem) && mem.stamp == s.Last()
    ensures mem.read == s.Last() && mem.disk == s.At(s.Last(), build)
  {
  }

  /** Skipping the second read when the stamp has not changed writes the very entries
      that reading and merging would have written. */
  lemma SkippingReadIsMerging(w: Setup, s: System, p: Pid)
    requires SystemOk(w, s) && Enabled(s, p, LookAtStamp) && s.procs[p].phase.mem.stamp == s.Last()
    ensures var mem := s.procs[p].phase.mem;
      Do(w, s, p, LookAtStamp).procs[p].phase.merged == Merged(Live(mem.disk, mem.added), s.At(s.Last(), s.procs[p].build))
  {
    StampTells(w, s, s.procs[p].build, s.procs[p].phase.mem);
  }

  // A system with more files and more stores keeps what held of the old ones.

  ghost predicate Grows(s: System, s1: System) {
    && s.files <= s1.files && s.authors <= s1.authors && s.stored <= s1.stored
    && |s.files| > 0 && |s.files| == |s.authors| && |s1.files| == |s1.authors|
  }

  lemma RecordedMore(w: Setup, stored: set<Call>, stored1: set<Call>, build: Build, entries: map<Key, Held>)
    requires Recorded(w, stored, build, entries) && stored <= stored1
    ensures Recorded(w, stored1, build, entries)
  {
    forall k | k in entries ensures exists c: Call ::
      c in stored1 && c.build == build && w.hashes.key(build, c.src) == k && entries[k] == Encoded(w.hashes, w.codec, build, c.src, c.code) {
      var c: Call :| c in stored && c.build == build && w.hashes.key(build, c.src) == k && entries[k] == Encoded(w.hashes, w.codec, build, c.src, c.code);
      assert c in stored1;
    }
  }

  lemma MemGrows(w: Setup, s: System, s1: System, build: Build, mem: Mem)
    requires MemOk(w, s, build, mem) && Grows(s, s1)
    ensures MemOk(w, s1, build, mem)
  {
    RecordedMore(w, s.stored, s1.stored, build, mem.added);
    assert s1.files[mem.read] == s.files[mem.read];
  }

  lemma ProcGrows(w: Setup, s: System, s1: System, p: Pid, proc: Proc)
    requires ProcOk(w, s, p, proc) && Grows(s, s1)
    requires proc.phase.Writing? ==> forall j | |s.files| <= j < |s1.files| :: s1.authors[j] != p
    ensures ProcOk(w, s1, p, proc)
  {
    hide MemOk;
    if !proc.phase.Outside? && !proc.phase.Stamped? { MemGrows(w, s, s1, proc.build, proc.phase.mem); }
    if proc.phase.Writing? {
      assert s1.files[proc.phase.look] == s.files[proc.phase.look];
      forall j | proc.phase.look < j < |s1.files| ensures s1.authors[j] != p {
        if j < |s.files| { assert s1.authors[j] == s.authors[j]; }
      }
    }
  }

  lemma FilesGrow(w: Setup, s: System, s1: System)
    requires FilesOk(w, s) && Grows(s, s1)
    requires forall i | |s.files| <= i < |s1.files| :: Sound(s1.files[i])
    requires forall i: nat, b: Build | |s.files| <= i < |s1.files| :: Recorded(w, s1.stored, b, s1.At(i, b))
    ensures FilesOk(w, s1)
  {
    forall i | 0 <= i < |s1.files| ensures Sound(s1.files[i]) { if i < |s.files| { assert s1.files[i] == s.files[i]; } }
    hide Recorded, Sound;
    forall i: nat, b: Build | i < |s1.files| ensures Recorded(w, s1.stored, b, s1.At(i, b)) {
      if i < |s.files| {
        assert s1.files[i] == s.files[i] && s1.At(i, b) == s.At(i, b);
        RecordedMore(w, s.stored, s1.stored, b, s.At(i, b));
      }
    }
  }

  /** One step grows the system, and leaves the stepping process in order. */
  lemma StepGrows(w: Setup, s: System, p: Pid, a: Action)
    requires SystemOk(w, s) && Enabled(s, p, a)
    ensures var s1 := Do(w, s, p, a);
      && Grows(s, s1)
      && s1.procs.Keys == s.procs.Keys && forall q | q in s.procs && q != p :: s1.procs[q] == s.procs[q]
    ensures a.Rename? || Do(w, s, p, a).files == s.files
    ensures a.Rename? ==> Do(w, s, p, a).files == s.files + [Some(a.image)] && Do(w, s, p, a).authors == s.authors + [p]
  {
  }

  lemma RenameRecorded(w: Setup, s: System, p: Pid, image: Image)
    requires SystemOk(w, s) && Enabled(s, p, Rename(image))
    ensures forall b: Build :: Recorded(w, s.stored, b, Contents(Some(image), b))
  {
    var build, phase := s.procs[p].build, s.procs[p].phase;
    assert ProcOk(w, s, p, s.procs[p]) && MemOk(w, s, build, phase.mem);
    RecordedMerge(w, s.stored, build, phase.mem.disk, phase.mem.added);
    RecordedMerge(w, s.stored, build, s.At(phase.look, build), Live(phase.mem.disk, phase.mem.added));
    hide Recorded;
    forall b: Build ensures Recorded(w, s.stored, b, Contents(Some(image), b)) {
      if b != build { RecordedNothing(w, s.stored, b); }
    }
  }

  lemma RecordedNothing(w: Setup, stored: set<Call>, b: Build)
    ensures Recorded(w, stored, b, map[])
  {
  }

  lemma StoreRecorded(w: Setup, stored: set<Call>, build: Build, added: map<Key, Held>, src: string, code: Code)
    requires Recorded(w, stored, build, added)
    ensures Recorded(w, stored + {Call(build, src, code)}, build, added[w.hashes.key(build, src) := Encoded(w.hashes, w.codec, build, src, code)])
  {
    var stored1, key := stored + {Call(build, src, code)}, w.hashes.key(build, src);
    var added1 := added[key := Encoded(w.hashes, w.codec, build, src, code)];
    RecordedMore(w, stored, stored1, build, added);
    forall k | k in added1 ensures exists c: Call ::
      c in stored1 && c.build == build && w.hashes.key(build, c.src) == k && added1[k] == Encoded(w.hashes, w.codec, build, c.src, c.code) {
      if k == key { assert Call(build, src, code) in stored1; } else { assert added1[k] == added[k]; }
    }
  }

  lemma StepperOk(w: Setup, s: System, p: Pid, a: Action)
    requires SystemOk(w, s) && Enabled(s, p, a)
    ensures ProcOk(w, Do(w, s, p, a), p, Do(w, s, p, a).procs[p])
  {
    var s1 := Do(w, s, p, a);
    StepGrows(w, s, p, a);
    var build, phase := s.procs[p].build, s.procs[p].phase;
    assert ProcOk(w, s, p, s.procs[p]);
    if phase.Running? || phase.Flushing? || phase.Stale? || phase.Writing? { MemGrows(w, s, s1, build, phase.mem); }
    if a.StoreOne? { StoreRecorded(w, s.stored, build, phase.mem.added, a.src, a.code); }
    if a.LookAtStamp? && phase.mem.stamp == s.Last() { SkippingReadIsMerging(w, s, p); }
    if a.ReadFile? { RecordedNothing(w, s.stored, build); }
    hide Recorded;
  }

  /** Every step of every process keeps the system in order. */
  lemma StepKeeps(w: Setup, s: System, p: Pid, a: Action)
    requires SystemOk(w, s) && Enabled(s, p, a)
    ensures SystemOk(w, Do(w, s, p, a))
  {
    var s1 := Do(w, s, p, a);
    StepGrows(w, s, p, a);
    StepperOk(w, s, p, a);
    if a.Rename? { RenameRecorded(w, s, p, a.image); }
    hide Recorded, MemOk, Enabled, Do, ProcOk, Contents;
    FilesGrow(w, s, s1);
    forall q | q in s1.procs ensures ProcOk(w, s1, q, s1.procs[q]) {
      if q != p { ProcGrows(w, s, s1, q, s.procs[q]); }
    }
  }

  // ── Runs ─────────────────────────────────────────────────────────────────

  /** Before any process has started; what the file holds for a build, some process of
      that build had stored. */
  ghost predicate Begins(w: Setup, s: System) {
    FilesOk(w, s) && forall p | p in s.procs :: s.procs[p].phase.Outside?
  }

  ghost predicate Interleaving(w: Setup, s: System, steps: seq<(Pid, Action)>)
    decreases |steps|
  {
    steps == [] || (Enabled(s, steps[0].0, steps[0].1) && Interleaving(w, Do(w, s, steps[0].0, steps[0].1), steps[1..]))
  }

  ghost function After(w: Setup, s: System, steps: seq<(Pid, Action)>): System
    requires Interleaving(w, s, steps)
    decreases |steps|
  {
    if steps == [] then s else After(w, Do(w, s, steps[0].0, steps[0].1), steps[1..])
  }

  lemma {:induction false} InterleavingKeeps(w: Setup, s: System, steps: seq<(Pid, Action)>)
    requires SystemOk(w, s) && Interleaving(w, s, steps)
    ensures SystemOk(w, After(w, s, steps))
    decreases |steps|
  {
    hide SystemOk, Enabled, Do;
    if steps != [] {
      StepKeeps(w, s, steps[0].0, steps[0].1);
      InterleavingKeeps(w, Do(w, s, steps[0].0, steps[0].1), steps[1..]);
    }
  }

  /** The entry `(k, x)`, value and all, is among `entries`. */
  predicate Holds(entries: map<Key, Held>, k: Key, x: Held) {
    k in entries && entries[k] == x
  }

  lemma {:induction false} EntryAppeared(s: System, build: Build, k: Key, x: Held, i: nat, last: nat) returns (j: nat)
    requires i <= last < |s.files| && !Holds(s.At(i, build), k, x) && Holds(s.At(last, build), k, x)
    ensures i < j <= last && !Holds(s.At(j - 1, build), k, x) && Holds(s.At(j, build), k, x)
    decreases last - i
  {
    if Holds(s.At(i + 1, build), k, x) { j := i + 1; } else { j := EntryAppeared(s, build, k, x, i + 1, last); }
  }

  /** What the process saw at its last look survives its rename, with its own entries in
      front; so no key of its build is lost when no commit fell into the window. */
  lemma RenameKeepsWhatWasSeen(w: Setup, s: System, steps: seq<(Pid, Action)>, p: Pid, image: Image)
    requires Begins(w, s) && Interleaving(w, s, steps) && Enabled(After(w, s, steps), p, Rename(image))
    ensures var s1 := After(w, s, steps); var phase, build := s1.procs[p].phase, s1.procs[p].build;
      && Contents(Some(image), build) == s1.At(phase.look, build) + phase.mem.disk + phase.mem.added
      && (forall b: Build | b != build :: Contents(Some(image), b) == map[])
      && (phase.look == s1.Last() ==> s1.At(s1.Last(), build).Keys <= Contents(Some(image), build).Keys)
  {
    InterleavingKeeps(w, s, steps);
    var s1 := After(w, s, steps);
    hide After, Interleaving, Recorded;
    assert ProcOk(w, s1, p, s1.procs[p]);
  }

  /** A process renames what it saw last; since then only others have committed. */
  lemma WindowIsOthers(w: Setup, s: System, steps: seq<(Pid, Action)>, p: Pid, image: Image)
    requires Begins(w, s) && Interleaving(w, s, steps) && Enabled(After(w, s, steps), p, Rename(image))
    ensures var s1 := After(w, s, steps);
      && s1.procs[p].phase.look < |s1.files| == |s1.authors|
      && forall j | s1.procs[p].phase.look < j < |s1.files| :: s1.authors[j] != p
  {
    InterleavingKeeps(w, s, steps);
    var s1 := After(w, s, steps);
    hide After, Interleaving, Recorded;
    assert ProcOk(w, s1, p, s1.procs[p]);
  }

  /** A committed entry is missing from the image a process renames into place if and only
      if the process holds another value for its key, or holds none and had not seen the
      entry at its last look. */
  lemma EntryDropped(w: Setup, s: System, steps: seq<(Pid, Action)>, p: Pid, image: Image, k: Key, x: Held)
    requires Begins(w, s) && Interleaving(w, s, steps) && Enabled(After(w, s, steps), p, Rename(image))
    ensures var s1 := After(w, s, steps); var build, phase := s1.procs[p].build, s1.procs[p].phase;
      var live := Live(phase.mem.disk, phase.mem.added);
      !Holds(Contents(Some(image), build), k, x) <==>
        if k in live then live[k] != x else !Holds(s1.At(phase.look, build), k, x)
  {
    RenameKeepsWhatWasSeen(w, s, steps, p, image);
    hide After, Interleaving, Begins, Enabled, Contents;
  }

  /** So a committed entry of a key the process does not hold is dropped only if another
      process committed it between the renaming process's last look at the file and the
      rename. */
  lemma LostOnlyInTheWindow(w: Setup, s: System, steps: seq<(Pid, Action)>, p: Pid, image: Image, k: Key, x: Held)
    requires Begins(w, s) && Interleaving(w, s, steps) && Enabled(After(w, s, steps), p, Rename(image))
    requires var s1 := After(w, s, steps); var build, mem := s1.procs[p].build, s1.procs[p].phase.mem;
      && Holds(s1.At(s1.Last(), build), k, x) && !Holds(Contents(Some(image), build), k, x)
      && k !in Live(mem.disk, mem.added)
    ensures var s1 := After(w, s, steps); var build, look := s1.procs[p].build, s1.procs[p].phase.look;
      exists j: nat :: look < j < |s1.files| && j < |s1.authors| && s1.authors[j] != p
        && !Holds(s1.At(j - 1, build), k, x) && Holds(s1.At(j, build), k, x)
  {
    EntryDropped(w, s, steps, p, image, k, x);
    WindowIsOthers(w, s, steps, p, image);
    var s1 := After(w, s, steps);
    hide After, Interleaving, Begins, Enabled, Contents;
    var j := EntryAppeared(s1, s1.procs[p].build, k, x, s1.procs[p].phase.look, s1.Last());
  }

  /** A key that a rename drops altogether is always such an entry. */
  lemma KeyLostOnlyInTheWindow(w: Setup, s: System, steps: seq<(Pid, Action)>, p: Pid, image: Image, k: Key)
    requires Begins(w, s) && Interleaving(w, s, steps) && Enabled(After(w, s, steps), p, Rename(image))
    requires var s1 := After(w, s, steps); var build := s1.procs[p].build;
      k in s1.At(s1.Last(), build) && k !in Contents(Some(image), build)
    ensures var s1 := After(w, s, steps); var build, look := s1.procs[p].build, s1.procs[p].phase.look;
      var x := s1.At(s1.Last(), build)[k];
      exists j: nat :: look < j < |s1.files| && j < |s1.authors| && s1.authors[j] != p
        && !Holds(s1.At(j - 1, build), k, x) && Holds(s1.At(j, build), k, x)
  {
    RenameKeepsWhatWasSeen(w, s, steps, p, image);
    var s1 := After(w, s, steps);
    hide After, Interleaving, Begins, Enabled, Contents;
    LostOnlyInTheWindow(w, s, steps, p, image, k, s1.At(s1.Last(), s1.procs[p].build)[k]);
  }

  /** A hit gives back a program that some process of the same build stored for a source
      with the same two hashes, with the hash of every chunk as the compiler makes it. */
  lemma HitWasStored(w: Setup, h: Hasher, s: System, steps: seq<(Pid, Action)>, p: Pid, src: string) returns (c: Call)
    requires Begins(w, s) && Interleaving(w, s, steps) && w.codec.Faithful()
    requires var s1 := After(w, s, steps);
      && p in s1.procs && s1.procs[p].phase.Running?
      && var mem := s1.procs[p].phase.mem; Lookup(w.hashes, w.codec, s1.procs[p].build, Live(mem.disk, mem.added), src).Some?
    ensures var s1 := After(w, s, steps); var mem, build := s1.procs[p].phase.mem, s1.procs[p].build;
      && c in s1.stored && c.build == build
      && w.hashes.key(build, c.src) == w.hashes.key(build, src) && w.hashes.verify(build, c.src) == w.hashes.verify(build, src)
      && Rehashed(h, Lookup(w.hashes, w.codec, build, Live(mem.disk, mem.added), src).value) == Rehashed(h, c.code)
      && (Rehashed(h, c.code) == c.code <==> IsBuilt(h, c.code))
  {
    InterleavingKeeps(w, s, steps);
    var s1 := After(w, s, steps);
    hide After, Interleaving;
    assert ProcOk(w, s1, p, s1.procs[p]);
    var mem, build := s1.procs[p].phase.mem, s1.procs[p].build;
    RecordedMerge(w, s1.stored, build, mem.disk, mem.added);
    var live, key := Live(mem.disk, mem.added), w.hashes.key(build, src);
    c :| c in s1.stored && c.build == build && w.hashes.key(build, c.src) == key && live[key] == Encoded(w.hashes, w.codec, build, c.src, c.code);
    RoundTrip(h, c.code);
  }
}
