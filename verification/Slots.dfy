/** Import slots: a reader resolved at link time that, after its first successful read,
    gives its place to the exporting module's own getter. */
module Slots {
  import opened ModuleGraph
  import opened Reachability
  import opened Exports
  import opened Records
  import opened Evaluation
  import opened AsyncState
  import opened EvaluateCall
  import opened Moves
  import opened Runs
  import opened BodyEntry
  import Linker
  import Descend
  import Wake

  // ── Reading a binding ────────────────────────────────────────────────────

  /** What a read gives: a value, `undefined`, the reader's own ReferenceError for a
      module that has registered no such getter, or the getter's for a binding not yet
      initialised. */
  datatype Read = Value(value: int) | Undefined | NoGetter | Uninitialised {
    predicate Fails() { NoGetter? || Uninitialised? }
  }

  /** The bindings of module environments that have been initialised, and the values of
      evaluated synthetic modules. */
  datatype Heap = Heap(bindings: map<(Env, Name), int>, values: map<(Id, Name), int>)

  function CallGetter(h: Heap, env: Env, name: Name): Read {
    if (env, name) in h.bindings then Value(h.bindings[(env, name)]) else Uninitialised
  }

  /** `register` makes a getter for the local name of each local export. */
  predicate Registers(g: Graph, m: Id, name: Name) {
    g.Cyclic(m) && exists i :: 0 <= i < |g.mods[m].locals| && g.mods[m].locals[i].local == name
  }

  function GettersOf(recs: Recs, m: Id): Option<Env> {
    if m < |recs| then recs[m].getters else None
  }

  /** bindingReader, called: the binding looked up afresh. */
  function ReadBinding(g: Graph, recs: Recs, h: Heap, m: Id, name: Name): Read {
    if !g.Cyclic(m) then
      if SyntheticDone(recs, m) && (m, name) in h.values then Value(h.values[(m, name)]) else Undefined
    else if GettersOf(recs, m).None? || !Registers(g, m, name) then NoGetter
    else CallGetter(h, GettersOf(recs, m).value, name)
  }

  // ── The slot that replaces itself ────────────────────────────────────────

  datatype Slot = Reader(m: Id, name: Name) | Getter(env: Env, name: Name)

  /** One call of `imp[k]`: the value, and what the slot then holds. */
  function ReadSlot(g: Graph, recs: Recs, h: Heap, slot: Slot): (Read, Slot) {
    match slot
    case Getter(env, name) => (CallGetter(h, env, name), slot)
    case Reader(m, name) =>
      var read := ReadBinding(g, recs, h, m, name);
      if read.Fails() || !g.Cyclic(m) || GettersOf(recs, m).None? then (read, slot)
      else (read, Getter(GettersOf(recs, m).value, name))
  }

  /** The slot was made for the binding `name` of `m`. */
  ghost predicate SlotFor(g: Graph, recs: Recs, slot: Slot, m: Id, name: Name) {
    slot == Reader(m, name)
    || (g.Cyclic(m) && Registers(g, m, name) && GettersOf(recs, m).Some? && slot == Getter(GettersOf(recs, m).value, name))
  }

  /** Reading the slot is reading the binding, and a failed read leaves the slot as it was. */
  lemma SlotRefinesReader(g: Graph, recs: Recs, h: Heap, slot: Slot, m: Id, name: Name)
    requires SlotFor(g, recs, slot, m, name)
    ensures ReadSlot(g, recs, h, slot).0 == ReadBinding(g, recs, h, m, name)
    ensures SlotFor(g, recs, ReadSlot(g, recs, h, slot).1, m, name)
    ensures ReadSlot(g, recs, h, slot).0.Fails() ==> ReadSlot(g, recs, h, slot).1 == slot
  {
  }

  /** One element of the array a compiled body reads its imports through. */
  class ImportCell {
    const m: Id
    const name: Name
    var slot: Slot

    constructor (m: Id, name: Name)
      ensures this.m == m && this.name == name && slot == Reader(m, name)
    {
      this.m, this.name := m, name;
      slot := Reader(m, name);
    }

    ghost predicate Valid(r: Registry)
      reads this, r, r.records
    {
      r.Valid() && SlotFor(r.g, r.st.recs, slot, m, name)
    }

    /** A call of `imp[k]`. */
    method Call(r: Registry, h: Heap) returns (read: Read)
      requires Valid(r)
      modifies this
      ensures Valid(r) && read == ReadBinding(r.g, r.st.recs, h, m, name)
      ensures read.Fails() ==> slot == old(slot)
    {
      SlotRefinesReader(r.g, r.st.recs, h, slot, m, name);
      match slot
      case Getter(env, n) =>
        read := CallGetter(h, env, n);
      case Reader(_, _) =>
        var getters := None;
        if m < |r.records| {
          assert r.records[m].Value() == r.st.recs[m];
          getters := r.records[m].getters;
        }
        read := Lookup(r, h);
        if r.g.Cyclic(m) && getters.Some? && !read.Fails() { slot := Getter(getters.value, name); }
    }

    /** The uncached reader. */
    method Lookup(r: Registry, h: Heap) returns (read: Read)
      requires r.Valid()
      ensures read == ReadBinding(r.g, r.st.recs, h, m, name)
    {
      if m >= |r.records| { return Undefined; }
      var x := r.records[m];
      assert x.Value() == r.st.recs[m];
      if !r.g.Cyclic(m) {
        read := if x.body.Over? && !x.hasError && (m, name) in h.values then Value(h.values[(m, name)]) else Undefined;
      } else if x.getters.None? || !Registers(r.g, m, name) {
        read := NoGetter;
      } else {
        read := CallGetter(h, x.getters.value, name);
      }
    }
  }

  // ── Getters, once registered, are registered for good ────────────────────

  ghost predicate GettersKept(g: Graph, r0: Recs, r1: Recs) {
    |r0| == |r1| && forall x: Id {:trigger r1[x]} | x < |r0| && g.Cyclic(x) && r0[x].getters.Some? :: r1[x].getters == r0[x].getters
  }

  lemma AdvancesKeepsGetters(g: Graph, st: State, st1: State)
    requires Advances(g, st, st1)
    ensures GettersKept(g, st.recs, st1.recs)
  {
    forall x: Id | x < |st.recs| && g.Cyclic(x) && st.recs[x].getters.Some?
      ensures st1.recs[x].getters == st.recs[x].getters
    {
      assert AdvancesAt(st.recs[x], st1.recs[x]);
    }
  }

  lemma NextKeepsGetters(w: World, st: State, step: Step)
    requires w.g.Loaded() && Ready(w.g, st) && May(w, st, step)
    ensures GettersKept(w.g, st.recs, Next(w, st, step).recs)
  {
    if step.Links? {
      hide Resting, LinkedOk;
      forall x: Id | x < |st.recs| && w.g.Cyclic(x) && st.recs[x].getters.Some?
        ensures step.after.recs[x].getters == st.recs[x].getters
      {
        assert PreparedAt(w.g, st.recs[x], step.after.recs[x], x);
      }
    } else {
      hide Ready, May, Next, Sees, Advances;
      ReadySees(w.g, st);
      StepChained(w, st, step);
      ChainedSees(w.g, st, StepEntries(w, st, step), Next(w, st, step));
      AdvancesKeepsGetters(w.g, st, Next(w, st, step));
    }
  }

  lemma SlotKept(g: Graph, r0: Recs, r1: Recs, slot: Slot, m: Id, name: Name)
    requires GettersKept(g, r0, r1) && SlotFor(g, r0, slot, m, name)
    ensures SlotFor(g, r1, slot, m, name)
  {
    hide Registers;
  }

  // ── Reads in a run ───────────────────────────────────────────────────────

  /** A run in which a slot is read between steps, and by the bodies that a step enters:
      `looks[i]` are the reads made while the `i`-th of them runs. */
  datatype Moment = Takes(step: Step, looks: seq<seq<Heap>>) | Reads(h: Heap)

  ghost predicate MayHappen(w: World, st: State, moment: Moment) {
    moment.Takes? ==> May(w, st, moment.step) && |moment.looks| == |StepEntries(w, st, moment.step)|
  }

  ghost predicate ReadingRun(w: World, st: State, moments: seq<Moment>)
    decreases |moments|
  {
    moments == [] || (MayHappen(w, st, moments[0])
      && ReadingRun(w, if moments[0].Takes? then Next(w, st, moments[0].step) else st, moments[1..]))
  }

  /** What the slot holds after the reads `hs`. */
  function SlotAfter(g: Graph, recs: Recs, slot: Slot, hs: seq<Heap>): Slot
    decreases |hs|
  {
    if hs == [] then slot else SlotAfter(g, recs, ReadSlot(g, recs, hs[0], slot).1, hs[1..])
  }

  function SlotAfterBodies(g: Graph, entered: seq<State>, slot: Slot, looks: seq<seq<Heap>>): Slot
    requires |looks| == |entered|
    decreases |entered|
  {
    if entered == [] then slot
    else SlotAfterBodies(g, entered[1..], SlotAfter(g, entered[0].recs, slot, looks[0]), looks[1..])
  }

  /** A read gives what a fresh lookup would have given, and leaves the slot if it fails. */
  ghost predicate ReadAgrees(g: Graph, recs: Recs, h: Heap, slot: Slot, m: Id, name: Name) {
    && ReadSlot(g, recs, h, slot).0 == ReadBinding(g, recs, h, m, name)
    && (ReadSlot(g, recs, h, slot).0.Fails() ==> ReadSlot(g, recs, h, slot).1 == slot)
  }

  ghost predicate AllAgree(g: Graph, recs: Recs, slot: Slot, m: Id, name: Name, hs: seq<Heap>)
    decreases |hs|
  {
    hs == [] || (ReadAgrees(g, recs, hs[0], slot, m, name) && AllAgree(g, recs, ReadSlot(g, recs, hs[0], slot).1, m, name, hs[1..]))
  }

  ghost predicate BodiesAgree(g: Graph, entered: seq<State>, slot: Slot, m: Id, name: Name, looks: seq<seq<Heap>>)
    requires |looks| == |entered|
    decreases |entered|
  {
    entered == [] || (AllAgree(g, entered[0].recs, slot, m, name, looks[0])
      && BodiesAgree(g, entered[1..], SlotAfter(g, entered[0].recs, slot, looks[0]), m, name, looks[1..]))
  }

  /** Each read of the slot agrees with a fresh lookup in the state it is made in. */
  ghost predicate ReadsAgree(w: World, st: State, slot: Slot, m: Id, name: Name, moments: seq<Moment>)
    requires ReadingRun(w, st, moments)
    decreases |moments|
  {
    moments == [] || match moments[0]
      case Takes(step, looks) =>
        var entered := StepEntries(w, st, step);
        BodiesAgree(w.g, entered, slot, m, name, looks)
        && ReadsAgree(w, Next(w, st, step), SlotAfterBodies(w.g, entered, slot, looks), m, name, moments[1..])
      case Reads(h) =>
        ReadAgrees(w.g, st.recs, h, slot, m, name) && ReadsAgree(w, st, ReadSlot(w.g, st.recs, h, slot).1, m, name, moments[1..])
  }

  lemma {:induction false} AllReadsAgree(g: Graph, recs: Recs, slot: Slot, m: Id, name: Name, hs: seq<Heap>)
    requires SlotFor(g, recs, slot, m, name)
    ensures AllAgree(g, recs, slot, m, name, hs) && SlotFor(g, recs, SlotAfter(g, recs, slot, hs), m, name)
    decreases |hs|
  {
    if hs != [] {
      SlotRefinesReader(g, recs, hs[0], slot, m, name);
      hide SlotFor, ReadSlot, ReadBinding;
      AllReadsAgree(g, recs, ReadSlot(g, recs, hs[0], slot).1, m, name, hs[1..]);
    }
  }

  lemma {:induction false} BodyReadsAgree(g: Graph, st: State, entered: seq<State>, st1: State, slot: Slot, m: Id, name: Name,
                                          looks: seq<seq<Heap>>)
    requires Sees(g, st) && Chained(g, st, entered, st1) && SlotFor(g, st.recs, slot, m, name) && |looks| == |entered|
    ensures BodiesAgree(g, entered, slot, m, name, looks)
    ensures SlotFor(g, st1.recs, SlotAfterBodies(g, entered, slot, looks), m, name)
    decreases |entered|
  {
    hide SlotFor, SlotAfter, AllAgree, Sees, Advances, SameBodies, Enters;
    ChainedSees(g, st, entered, st1);
    if entered == [] {
      AdvancesKeepsGetters(g, st, st1);
      SlotKept(g, st.recs, st1.recs, slot, m, name);
    } else {
      var s := entered[0];
      AdvancesKeepsGetters(g, st, s);
      SlotKept(g, st.recs, s.recs, slot, m, name);
      AllReadsAgree(g, s.recs, slot, m, name, looks[0]);
      BodyReadsAgree(g, s, entered[1..], st1, SlotAfter(g, s.recs, slot, looks[0]), m, name, looks[1..]);
    }
  }

  /** The slot that replaces itself refines the plain reader in every run, whether it is
      read between steps or by a body in the middle of one. */
  lemma {:induction false} SlotRefinesReaderInRuns(w: World, st: State, slot: Slot, m: Id, name: Name,
                                                   moments: seq<Moment>)
    requires w.g.Loaded() && Ready(w.g, st) && ReadingRun(w, st, moments) && SlotFor(w.g, st.recs, slot, m, name)
    ensures ReadsAgree(w, st, slot, m, name, moments)
    decreases |moments|
  {
    hide Ready, May, Next, SlotFor, ReadSlot, ReadBinding, Sees, Chained;
    if moments != [] {
      match moments[0]
      case Takes(step, looks) =>
        NextReady(w, st, step);
        StepReadsAgree(w, st, step, slot, m, name, looks);
        SlotRefinesReaderInRuns(w, Next(w, st, step), SlotAfterBodies(w.g, StepEntries(w, st, step), slot, looks), m, name, moments[1..]);
      case Reads(h) =>
        SlotRefinesReader(w.g, st.recs, h, slot, m, name);
        SlotRefinesReaderInRuns(w, st, ReadSlot(w.g, st.recs, h, slot).1, m, name, moments[1..]);
    }
  }

  lemma StepReadsAgree(w: World, st: State, step: Step, slot: Slot, m: Id, name: Name, looks: seq<seq<Heap>>)
    requires w.g.Loaded() && Ready(w.g, st) && May(w, st, step) && SlotFor(w.g, st.recs, slot, m, name)
    requires |looks| == |StepEntries(w, st, step)|
    ensures BodiesAgree(w.g, StepEntries(w, st, step), slot, m, name, looks)
    ensures SlotFor(w.g, Next(w, st, step).recs, SlotAfterBodies(w.g, StepEntries(w, st, step), slot, looks), m, name)
  {
    if step.Links? {
      NextKeepsGetters(w, st, step);
      SlotKept(w.g, st.recs, Next(w, st, step).recs, slot, m, name);
    } else {
      hide Ready, May, Next, SlotFor, Sees, Chained, BodiesAgree, SlotAfterBodies;
      ReadySees(w.g, st);
      StepChained(w, st, step);
      BodyReadsAgree(w.g, st, StepEntries(w, st, step), Next(w, st, step), slot, m, name, looks);
    }
  }

  // ── Reading from a running body ──────────────────────────────────────────

  /** The environment of `z` exists before the `k`-th event: it was made by linking, or
      by a body entered earlier. */
  ghost predicate EnvironmentBefore(st: State, z: Id, k: nat) {
    z < |st.recs| && k <= |st.log| && (st.recs[z].code.Generator? || Began(z) in st.log[..k])
  }

  /** The `i`-th import of `m`, which is linked, reads the binding `b`. */
  ghost predicate ImportReads(g: Graph, recs: Recs, m: Id, i: nat, b: Binding) {
    && m < |recs| && g.Cyclic(m) && Linker.Past(recs[m].status)
    && i < |g.mods[m].imports| && i < |recs[m].imp| && recs[m].imp[i] == BindingOf(b)
  }

  function Importee(g: Graph, m: Id, i: nat): Id {
    if g.Cyclic(m) && i < |g.mods[m].imports| then g.Target(m, g.mods[m].imports[i].req) else |g.mods|
  }

  /** What an import entry's slot resolves to is reachable through its request. */
  lemma SlotTarget(g: Graph, m: Id, e: ImportEntry, b: Binding)
    requires g.Loaded() && g.Cyclic(m) && e in g.mods[m].imports
    requires Linker.ImportResolves(g, m, e) && Linker.SlotOf(g, m, e) == BindingOf(b)
    ensures g.Target(m, e.req) in g.Requested(m) && Reach(Imports(g), g.Target(m, e.req), b.target)
    ensures b.target < |g.mods| && b.name.Named? && (g.Cyclic(b.target) ==> Registers(g, b.target, b.name.name))
  {
    var i :| 0 <= i < |g.mods[m].imports| && g.mods[m].imports[i] == e;
    assert e.req < |g.mods[m].requested|;
    var q := Query(g.Target(m, e.req), e.name.value);
    hide Reach, Meaning;
    FoundIsLocal(g, q);
    var t :| Reach(Asks(g), q, t) && t.m == b.target;
    AskedPath(g, q, t);
  }

  lemma AskedPath(g: Graph, q: Query, t: Query)
    requires g.Loaded() && Reach(Asks(g), q, t)
    ensures Reach(Imports(g), q.m, t.m)
  {
    var p :| PathFrom(Asks(g), q, t, p);
    AskedIsImported(g, p);
  }

  /** What an import reads is linked: a generator with its getters if it lies on a cycle,
      and a plain function otherwise. */
  lemma TargetCompiled(g: Graph, st: State, m: Id, i: nat, b: Binding)
    requires g.Loaded() && Ready(g, st) && ImportReads(g, st.recs, m, i, b)
    ensures b.name.Named? && Importee(g, m, i) in g.Requested(m) && Reach(Imports(g), Importee(g, m, i), b.target)
    ensures b.target < |st.recs| == |g.mods|
    ensures g.Cyclic(b.target) ==> Registers(g, b.target, b.name.name)
    ensures g.Cyclic(b.target) ==> st.recs[b.target].code == if OnCycle(Imports(g), b.target) then Generator else Plain
  {
    var e, z := g.mods[m].imports[i], b.target;
    assert |st.recs| == |g.mods| by { RestingRecords(g, st); hide Resting; }
    assert Linker.LinkQuiet(g, st.recs) by { hide Resting; }
    assert Linker.StaysInstantiated(g, m, st.recs[m]) by { hide Reach, Meaning, OnCycle; }
    assert Linker.ImportResolves(g, m, e) && Linker.SlotOf(g, m, e) == BindingOf(b) by { hide Reach, Meaning, OnCycle; }
    hide Ready, Meaning, OnCycle, Registers;
    SlotTarget(g, m, e, b);
    var v, gone := g.Target(m, e.req), Linker.Gone(g, st.recs);
    assert v in Imports(g)(m);
    ReachStep(Imports(g), m, v, z);
    hide Reach;
    ClosedReach(Imports(g), gone, m, z);
    if g.Cyclic(z) { assert Linker.StaysInstantiated(g, z, st.recs[z]); }
  }

  /** Whenever the loader is observed, between steps or while a body runs, the read of an
      import fails for want of a getter if and only if the binding's module lies on no
      import cycle and its body has not been entered yet. */
  lemma NoGetterExactly(w: World, st: State, s: State, m: Id, i: nat, b: Binding, h: Heap)
    requires w.g.Loaded() && Ready(w.g, st) && Observed(w, st, s) && ImportReads(w.g, st.recs, m, i, b)
    ensures b.name.Named?
    ensures ReadBinding(w.g, s.recs, h, b.target, b.name.name).NoGetter?
      <==> w.g.Cyclic(b.target) && !OnCycle(Imports(w.g), b.target) && Began(b.target) !in s.log
    ensures |s.recs| == |st.recs| && b.target < |s.recs|
    ensures w.g.Cyclic(b.target) ==> (s.recs[b.target].code.Generator? <==> OnCycle(Imports(w.g), b.target))
  {
    TargetCompiled(w.g, st, m, i, b);
    ObservedSees(w, st, s);
    hide Ready, Observed, OnCycle, Reach, Registers;
    if w.g.Cyclic(b.target) { assert SeesAt(s, b.target) && AdvancesAt(st.recs[b.target], s.recs[b.target]); }
  }

  lemma MutualOnCycle(g: Graph, m: Id, v: Id, z: Id)
    requires v in g.Requested(m) && Reach(Imports(g), v, z) && Reach(Imports(g), z, m)
    ensures OnCycle(Imports(g), z)
  {
    hide Reach;
    if z == m {
      assert v in Imports(g)(z);
    } else {
      var y := ReachUnroll(Imports(g), z, m);
      ReachEdge(Imports(g), m, v);
      ReachTrans(Imports(g), y, m, v);
      ReachTrans(Imports(g), y, v, z);
    }
  }

  lemma LastApart(log: seq<Event>, e: Event)
    requires log != [] && log[|log|-1] != e
    ensures e in log <==> e in log[..|log|-1]
  {
    if e in log { var j :| 0 <= j < |log| && log[j] == e; assert log[..|log|-1][j] == e; }
  }

  /** A module that imports from itself, by whatever way, lies on a cycle. */
  lemma OwnTarget(g: Graph, st: State, m: Id, i: nat, b: Binding)
    requires g.Loaded() && Ready(g, st) && ImportReads(g, st.recs, m, i, b) && b.target == m
    ensures OnCycle(Imports(g), m)
  {
    TargetCompiled(g, st, m, i, b);
    hide *;
    ReachRefl(Imports(g), m);
    MutualOnCycle(g, m, Importee(g, m, i), m);
  }

  /** When the body of `m` has just been entered, its `i`-th import finds a getter if and only
      if the environment of the binding's module existed before. */
  lemma GetterIffEnvironment(w: World, st: State, s: State, m: Id, i: nat, b: Binding, h: Heap)
    requires w.g.Loaded() && Ready(w.g, st) && Observed(w, st, s) && ImportReads(w.g, st.recs, m, i, b)
    requires s.log != [] && s.log[|s.log|-1] == Began(m) && w.g.Cyclic(b.target)
    ensures b.name.Named?
    ensures !ReadBinding(w.g, s.recs, h, b.target, b.name.name).NoGetter? <==> EnvironmentBefore(s, b.target, |s.log| - 1)
  {
    NoGetterExactly(w, st, s, m, i, b, h);
    if b.target == m { OwnTarget(w.g, st, m, i, b); } else { LastApart(s.log, Began(b.target)); }
    hide Ready, Observed, ImportReads, OnCycle, ReadBinding;
  }

  lemma PrefixIn(log: seq<Event>, j: nat, k: nat, e: Event)
    requires j <= k <= |log| && e in log[..j]
    ensures e in log[..k]
  {
    var i :| 0 <= i < j && log[..j][i] == e;
    assert log[..k][i] == e;
  }

  /** A running body never finds the getters of an imported binding missing, if what it
      imports from is outside its own cycle, or the binding's module lies on some cycle;
      in either case the environment existed before the body was entered. */
  lemma ImportHasGetter(w: World, steps: seq<Step>, s: State, m: Id, i: nat, b: Binding, h: Heap)
    requires w.g.Loaded() && Run(w, Initial(w.g), steps) && Observed(w, After(w, Initial(w.g), steps), s)
    requires ImportReads(w.g, After(w, Initial(w.g), steps).recs, m, i, b) && Began(m) in s.log
    requires !MutualReach(Imports(w.g), m, Importee(w.g, m, i)) || OnCycle(Imports(w.g), b.target)
    ensures b.name.Named? && !ReadBinding(w.g, s.recs, h, b.target, b.name.name).NoGetter?
    ensures w.g.Cyclic(b.target) ==>
        forall k: nat | k < |s.log| && s.log[k] == Began(m) :: EnvironmentBefore(s, b.target, k)
  {
    var g, st, z := w.g, After(w, Initial(w.g), steps), b.target;
    Reached(w, steps);
    NoGetterExactly(w, st, s, m, i, b, h);
    TargetCompiled(g, st, m, i, b);
    hide After, Run, Ready, Resting, Observed, Reach, OnCycle, ImportReads, Registers;
    if g.Cyclic(z) && !OnCycle(Imports(g), z) {
      forall k: nat | k < |s.log| && s.log[k] == Began(m) ensures Began(z) in s.log[..k] {
        OutsideCycle(w, steps, s, k, m, Importee(g, m, i), z);
      }
      var k: nat :| k < |s.log| && s.log[k] == Began(m);
      PrefixIn(s.log, k, |s.log|, Began(z));
      assert s.log[..|s.log|] == s.log;
    }
  }

  lemma OutsideCycle(w: World, steps: seq<Step>, s: State, k: nat, m: Id, v: Id, z: Id)
    requires w.g.Loaded() && Run(w, Initial(w.g), steps) && Observed(w, After(w, Initial(w.g), steps), s)
    requires k < |s.log| && s.log[k] == Began(m)
    requires v in w.g.Requested(m) && !MutualReach(Imports(w.g), m, v) && Reach(Imports(w.g), v, z)
    ensures Began(z) in s.log[..k]
  {
    var steps1 := ObservedRun(w, steps, s);
    var log1 := After(w, Initial(w.g), steps1).log;
    Reached(w, steps1);
    assert BegunFirst(log1) by { hide After, Run, Wake.Quiescent, Reach; }
    hide After, Run, Ready, Resting, Observed;
    assert log1[k] == Began(m) && log1[..k] == s.log[..k];
    BodiesStartInOrder(w, steps1, k, m, v, z);
    hide Reach;
    var j :| 0 <= j < k && log1[..k][j] == Completed(z);
    assert log1[j] == Completed(z);
    PrefixIn(log1, j, k, Began(z));
  }

  /** An observed state lies on the way to the end of some run. */
  lemma ObservedRun(w: World, steps: seq<Step>, s: State) returns (steps1: seq<Step>)
    requires w.g.Loaded() && Run(w, Initial(w.g), steps) && Observed(w, After(w, Initial(w.g), steps), s)
    ensures Run(w, Initial(w.g), steps1) && s.log <= After(w, Initial(w.g), steps1).log
  {
    var st := After(w, Initial(w.g), steps);
    steps1 := steps;
    if s != st {
      var step: Step :| May(w, st, step) && s in StepEntries(w, st, step);
      steps1 := steps + [step];
      Reached(w, steps);
      RunExtends(w, Initial(w.g), steps, step);
      ReadySees(w.g, st);
      hide Ready, Resting, Sees, May, Run, After, Next;
      StepChained(w, st, step);
      ChainedSees(w.g, st, StepEntries(w, st, step), Next(w, st, step));
    }
  }

  lemma {:induction false} RunExtends(w: World, st: State, steps: seq<Step>, step: Step)
    requires Run(w, st, steps) && May(w, After(w, st, steps), step)
    ensures Run(w, st, steps + [step]) && After(w, st, steps + [step]) == Next(w, After(w, st, steps), step)
    decreases |steps|
  {
    hide May, Next;
    if steps == [] {
      assert steps + [step] == [step] && [step][1..] == [];
      assert Run(w, Next(w, st, step), []);
      assert After(w, Next(w, st, step), []) == Next(w, st, step);
    } else {
      RunExtends(w, Next(w, st, steps[0]), steps[1..], step);
      assert (steps + [step])[1..] == steps[1..] + [step];
    }
  }
}
