/** Why the shard promises keys and not entries: a process that has read a key holds its old
    value, and its flush puts that value back over a newer one that it has itself seen. */
module StaleOverwrite {
  import opened ModuleGraph
  import opened CachedProgram
  import opened Shard
  import opened CacheProtocol

  // 0 reads a file that has `src`; 1 compiles `src` anew and commits; 0 stores `other`,
  // sees that the file has changed, reads it again, and renames its merge into place.

  /** An archive of the entries `a`, under `k`, and `b`, under `j`. */
  function Two(build: Build, k: Key, a: Held, j: Key, b: Held): Image {
    Archive(a.blob + b.blob, [Located(k, a.verify, build, 0, |a.blob|), Located(j, b.verify, build, |a.blob|, |b.blob|)])
  }

  function One(build: Build, k: Key, a: Held): Image {
    Archive(a.blob, [Located(k, a.verify, build, 0, |a.blob|)])
  }

  lemma Last(bytes: seq<Byte>, table: seq<Located>, last: Located, b: Build)
    ensures Indexed(bytes, table + [last], b)
      == if last.build == b then Indexed(bytes, table, b)[last.key := HeldAt(bytes, last)] else Indexed(bytes, table, b)
  {
    assert (table + [last])[..|table|] == table;
  }

  lemma OneHolds(build: Build, k: Key, a: Held)
    ensures Sound(Some(One(build, k, a)))
    ensures forall b: Build :: Contents(Some(One(build, k, a)), b) == if b == build then map[k := a] else map[]
  {
    var image := One(build, k, a);
    assert HeldAt(image.bytes, image.table[0]) == a by { assert a.blob[0..|a.blob|] == a.blob; }
    assert image.table == [] + [image.table[0]];
    forall b: Build
      ensures Contents(Some(image), b) == if b == build then map[k := a] else map[]
    {
      Last(image.bytes, [], image.table[0], b);
    }
  }

  lemma TwoHolds(build: Build, k: Key, a: Held, j: Key, b: Held)
    requires k != j
    ensures Sound(Some(Two(build, k, a, j, b)))
    ensures forall c: Build ::
        Contents(Some(Two(build, k, a, j, b)), c) == if c == build then map[k := a, j := b] else map[]
  {
    var image := Two(build, k, a, j, b);
    assert HeldAt(image.bytes, image.table[0]) == a by { assert image.bytes[0..|a.blob|] == a.blob; }
    assert HeldAt(image.bytes, image.table[1]) == b by { assert image.bytes[|a.blob|..|a.blob| + |b.blob|] == b.blob; }
    assert image.table == [] + [image.table[0]] + [image.table[1]];
    forall c: Build ensures Contents(Some(image), c) == if c == build then map[k := a, j := b] else map[] {
      Last(image.bytes, [], image.table[0], c);
      Last(image.bytes, [] + [image.table[0]], image.table[1], c);
    }
  }

  datatype Story = Story(w: Setup, build: Build, src: string, other: string, first: Code, second: Code, third: Code) {
    function Key1(): Key { w.hashes.key(build, src) }

    function Key2(): Key { w.hashes.key(build, other) }

    function Old(): Held { Encoded(w.hashes, w.codec, build, src, first) }

    function Newer(): Held { Encoded(w.hashes, w.codec, build, src, second) }

    function Third(): Held { Encoded(w.hashes, w.codec, build, other, third) }

    function Start(): System {
      System(map[0 := Proc(build, Outside), 1 := Proc(build, Outside)], [Some(One(build, Key1(), Old()))], [1],
             {Call(build, src, first)})
    }

    /** 0 has read the file. */
    function Read(): System {
      Start().Put(0, build, Running(Mem(0, 0, map[Key1() := Old()], map[]), false))
    }

    /** 1 has read it too, and stored the newer entry. */
    function Stored(): System {
      var mem := Mem(0, 0, map[Key1() := Old()], map[Key1() := Newer()]);
      Read().Put(1, build, Running(mem, true)).(stored := Start().stored + {Call(build, src, second)})
    }

    /** 1 has committed the newer entry. */
    function Committed(): System {
      var mem := Mem(0, 0, map[Key1() := Old()], map[Key1() := Newer()]);
      Stored().Put(1, build, Running(mem, false)).(files := Start().files + [Some(One(build, Key1(), Newer()))], authors := [1, 1])
    }

    /** 0 has stored an entry of its own, and begins its flush. */
    function Ending(): System {
      var mem := Mem(0, 0, map[Key1() := Old()], map[Key2() := Third()]);
      Committed().Put(0, build, Flushing(mem)).(stored := Committed().stored + {Call(build, other, third)})
    }

    /** 0 has looked at the file again. */
    function Merging(): System {
      var mem := Mem(0, 0, map[Key1() := Old()], map[Key2() := Third()]);
      Ending().Put(0, build, Writing(mem, 1, map[Key1() := Old(), Key2() := Third()]))
    }

    function ReadSteps(): seq<(Pid, Action)> {
      [(0, TakeStamp)] + [(0, ReadFile)]
    }

    function StoreSteps(): seq<(Pid, Action)> {
      [(1, TakeStamp)] + ([(1, ReadFile)] + [(1, StoreOne(src, second))])
    }

    function CommitSteps(): seq<(Pid, Action)> {
      [(1, BeginFlush)] + ([(1, LookAtStamp)] + [(1, Action.Rename(One(build, Key1(), Newer())))])
    }

    function EndSteps(): seq<(Pid, Action)> {
      [(0, StoreOne(other, third))] + [(0, BeginFlush)]
    }

    function MergeSteps(): seq<(Pid, Action)> {
      [(0, LookAtStamp)] + [(0, ReadAgain)]
    }
  }

  ghost predicate LeadsTo(w: Setup, s: System, steps: seq<(Pid, Action)>, s1: System) {
    Interleaving(w, s, steps) && After(w, s, steps) == s1
  }

  lemma OneMore(w: Setup, s: System, p: Pid, a: Action, steps: seq<(Pid, Action)>, s1: System)
    requires Enabled(s, p, a) && LeadsTo(w, Do(w, s, p, a), steps, s1)
    ensures LeadsTo(w, s, [(p, a)] + steps, s1)
  {
    hide Enabled, Do;
    assert ([(p, a)] + steps)[1..] == steps;
  }

  lemma {:induction false} StepsThen(w: Setup, s: System, one: seq<(Pid, Action)>, s1: System, two: seq<(Pid, Action)>,
                                     s2: System)
    requires LeadsTo(w, s, one, s1) && LeadsTo(w, s1, two, s2)
    ensures LeadsTo(w, s, one + two, s2)
    decreases |one|
  {
    if one == [] {
      assert one + two == two;
    } else {
      var p, a := one[0].0, one[0].1;
      hide Enabled, Do;
      StepsThen(w, Do(w, s, p, a), one[1..], s1, two, s2);
      OneMore(w, s, p, a, one[1..] + two, s2);
      assert [(p, a)] + (one[1..] + two) == one + two;
    }
  }

  lemma Nothing(w: Setup, s: System)
    ensures LeadsTo(w, s, [], s)
  {
  }

  lemma Twice(w: Setup, s: System, a: (Pid, Action), b: (Pid, Action), s2: System)
    requires Enabled(s, a.0, a.1)
    requires var s1 := Do(w, s, a.0, a.1); Enabled(s1, b.0, b.1) && Do(w, s1, b.0, b.1) == s2
    ensures LeadsTo(w, s, [a] + [b], s2)
  {
    Nothing(w, s2);
    var s1 := Do(w, s, a.0, a.1);
    assert [b] + [] == [b];
    hide LeadsTo, Enabled, Do;
    OneMore(w, s1, b.0, b.1, [], s2);
    OneMore(w, s, a.0, a.1, [b], s2);
  }

  lemma ReadRuns(t: Story)
    ensures LeadsTo(t.w, t.Start(), t.ReadSteps(), t.Read())
  {
    OneHolds(t.build, t.Key1(), t.Old());
    hide Contents, LeadsTo;
    Twice(t.w, t.Start(), (0, TakeStamp), (0, ReadFile), t.Read());
  }

  lemma StoreRuns(t: Story)
    ensures LeadsTo(t.w, t.Read(), t.StoreSteps(), t.Stored())
  {
    OneHolds(t.build, t.Key1(), t.Old());
    hide Contents, LeadsTo;
    var s1 := Do(t.w, t.Read(), 1, TakeStamp);
    assert Do(t.w, Do(t.w, s1, 1, ReadFile), 1, StoreOne(t.src, t.second)) == t.Stored();
    Twice(t.w, s1, (1, ReadFile), (1, StoreOne(t.src, t.second)), t.Stored());
    OneMore(t.w, t.Read(), 1, TakeStamp, [(1, ReadFile)] + [(1, StoreOne(t.src, t.second))], t.Stored());
  }

  lemma CommitRuns(t: Story)
    ensures LeadsTo(t.w, t.Stored(), t.CommitSteps(), t.Committed())
  {
    OneHolds(t.build, t.Key1(), t.Newer());
    hide Contents, LeadsTo;
    var image := One(t.build, t.Key1(), t.Newer());
    var s1 := Do(t.w, t.Stored(), 1, BeginFlush);
    assert Live(map[t.Key1() := t.Old()], map[t.Key1() := t.Newer()]) == map[t.Key1() := t.Newer()];
    assert Do(t.w, Do(t.w, s1, 1, LookAtStamp), 1, Action.Rename(image)) == t.Committed();
    Twice(t.w, s1, (1, LookAtStamp), (1, Action.Rename(image)), t.Committed());
    OneMore(t.w, t.Stored(), 1, BeginFlush, [(1, LookAtStamp)] + [(1, Action.Rename(image))], t.Committed());
  }

  lemma EndRuns(t: Story)
    ensures LeadsTo(t.w, t.Committed(), t.EndSteps(), t.Ending())
  {
    hide Contents, LeadsTo;
    Twice(t.w, t.Committed(), (0, StoreOne(t.other, t.third)), (0, BeginFlush), t.Ending());
  }

  /** What is held wins over what is read again. */
  lemma HeldWins(k: Key, a: Held, j: Key, b: Held, c: Held)
    requires k != j
    ensures Merged(Live(map[k := a], map[j := b]), map[k := c]) == map[k := a, j := b]
  {
  }

  lemma MergeRuns(t: Story)
    requires t.Key1() != t.Key2()
    ensures LeadsTo(t.w, t.Ending(), t.MergeSteps(), t.Merging())
  {
    var w, s0, s2 := t.w, t.Ending(), t.Merging();
    OneHolds(t.build, t.Key1(), t.Newer());
    HeldWins(t.Key1(), t.Old(), t.Key2(), t.Third(), t.Newer());
    hide Contents, LeadsTo, Merged, Live;
    assert s0.Last() == 1 && s0.At(1, t.build) == map[t.Key1() := t.Newer()];
    var s1 := Do(w, s0, 0, LookAtStamp);
    assert s1.procs[0] == Proc(t.build, Stale(s0.procs[0].phase.mem)) && s1.files == s0.files;
    assert Do(w, s1, 0, ReadAgain) == s2;
    Twice(w, s0, (0, LookAtStamp), (0, ReadAgain), s2);
  }

  lemma StartBegins(t: Story)
    ensures Begins(t.w, t.Start())
  {
    OneHolds(t.build, t.Key1(), t.Old());
    var s := t.Start();
    forall i: nat, b: Build | i < |s.files| ensures Recorded(t.w, s.stored, b, s.At(i, b)) {
      assert Call(t.build, t.src, t.first) in s.stored;
    }
  }

  /** The rename that ends the story puts the old entry back over the newer one, which the
      process had seen at its last look. */
  lemma NewerIsOverwritten(t: Story)
    requires t.Key1() != t.Key2() && t.Old() != t.Newer()
    ensures var steps := t.ReadSteps() + (t.StoreSteps() + (t.CommitSteps() + (t.EndSteps() + t.MergeSteps())));
      var image := Two(t.build, t.Key1(), t.Old(), t.Key2(), t.Third());
      && Begins(t.w, t.Start()) && Interleaving(t.w, t.Start(), steps)
      && var s1 := After(t.w, t.Start(), steps);
      && Enabled(s1, 0, Action.Rename(image)) && s1.procs[0].phase.look == s1.Last()
      && Holds(s1.At(s1.Last(), t.build), t.Key1(), t.Newer())
      && Holds(Contents(Some(image), t.build), t.Key1(), t.Old())
      && !Holds(Contents(Some(image), t.build), t.Key1(), t.Newer())
  {
    StartBegins(t);
    ReadRuns(t);
    StoreRuns(t);
    CommitRuns(t);
    MergeRuns(t);
    EndRuns(t);
    StepsThen(t.w, t.Committed(), t.EndSteps(), t.Ending(), t.MergeSteps(), t.Merging());
    StepsThen(t.w, t.Stored(), t.CommitSteps(), t.Committed(), t.EndSteps() + t.MergeSteps(), t.Merging());
    StepsThen(t.w, t.Read(), t.StoreSteps(), t.Stored(), t.CommitSteps() + (t.EndSteps() + t.MergeSteps()), t.Merging());
    StepsThen(t.w, t.Start(), t.ReadSteps(), t.Read(), t.StoreSteps() + (t.CommitSteps() + (t.EndSteps() + t.MergeSteps())), t.Merging());
    MergingEnds(t);
    hide Interleaving, After, Enabled, Begins, Contents;
  }

  lemma MergingEnds(t: Story)
    requires t.Key1() != t.Key2() && t.Old() != t.Newer()
    ensures var s1, image := t.Merging(), Two(t.build, t.Key1(), t.Old(), t.Key2(), t.Third());
      && Enabled(s1, 0, Action.Rename(image)) && s1.procs[0].phase.look == s1.Last()
      && Holds(s1.At(s1.Last(), t.build), t.Key1(), t.Newer())
      && Holds(Contents(Some(image), t.build), t.Key1(), t.Old())
  {
    TwoHolds(t.build, t.Key1(), t.Old(), t.Key2(), t.Third());
    OneHolds(t.build, t.Key1(), t.Newer());
    hide Contents;
  }
}
