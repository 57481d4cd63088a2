/** Why the getter of an import is promised only outside the reader's cycle, or inside it:
    a module that imports from a sibling in its cycle a name that the sibling re-exports
    from outside may run before the module that really exports it. */
module CycleSibling {
  import opened ModuleGraph
  import opened Reachability
  import opened Records
  import opened Evaluation
  import opened EvaluateCall
  import opened Moves
  import opened Runs
  import opened BodyEntry
  import opened Slots
  import Exports
  import HostEntry
  import Linker

  // 0 imports 1 and re-exports `x` from 2; 1 imports `x` from 0; 2 exports `x`.

  const X: Name := "x"

  function Ring(): World {
    World(Graph([SourceText([1, 2], [], [IndirectExport(X, 1, Some(X))], [], [], false),
                 SourceText([0], [], [], [], [ImportEntry(0, Some(X), X)], false),
                 SourceText([], [LocalExport(X, X)], [], [], [], false)]), map[])
  }

  function Exporter(): Exports.Binding {
    Exports.Binding(2, Exports.Named(X))
  }

  function RingRecord(x: Id): Rec {
    if x == 2 then Fresh().(status := Linked, code := Plain)
    else Fresh().(status := Linked, code := Generator, getters := Some(x), imp := if x == 1 then [BindingOf(Exporter())] else [])
  }

  /** Nothing has run; the three modules are linked, and the two of the cycle have environments. */
  function RingStart(): State {
    State([RingRecord(0), RingRecord(1), RingRecord(2)], 0, 2, [])
  }

  // ── The graph is linked as the linker leaves it ──────────────────────────

  lemma RingResolves(g: Graph)
    requires g == Ring().g
    ensures Exports.Meaning(g, Exports.Query(0, X)) == Exports.Found(Exporter())
  {
    var q, t := Exports.Query(0, X), Exports.Query(2, X);
    assert Exports.FirstIndirect(g.mods[0].indirects, X) == Some(g.mods[0].indirects[0]);
    assert Exports.Asks(g)(q) == [t] && Exports.Asks(g)(t) == [] && Exports.Terminal(g, q) == None && Exports.Terminal(g, t) == Some(Exporter());
    ReachEdge(Exports.Asks(g), q, t);
    assert Exports.Leads(g, q, Exporter());
    forall c | Exports.Leads(g, q, c) ensures c == Exporter() {
      var z :| Reach(Exports.Asks(g), q, z) && Exports.Terminal(g, z) == Some(c);
      var y := ReachUnroll(Exports.Asks(g), q, z);
      ReachFromSink(Exports.Asks(g), t, z);
    }
    Exports.MeaningUnique(g, q, Exports.Found(Exporter()));
  }

  lemma RingCycle(g: Graph, x: Id)
    requires g == Ring().g && x < 3
    ensures OnCycle(Imports(g), x) <==> x != 2
  {
    assert Imports(g)(0) == [1, 2] && Imports(g)(1) == [0] && Imports(g)(2) == [];
    assert 0 in Imports(g)(1) && 1 in Imports(g)(0);
    ReachEdge(Imports(g), 0, 1);
    ReachEdge(Imports(g), 1, 0);
  }

  lemma RingSlots(g: Graph, x: Id)
    requires g == Ring().g && x < 3
    ensures Linker.SlotsResolved(g, x, RingRecord(x).imp)
  {
    RingResolves(g);
    hide Exports.Meaning;
    if x == 0 {
      assert g.mods[0].indirects == [IndirectExport(X, 1, Some(X))] && g.mods[0].imports == [];
    } else if x == 1 {
      var e := g.mods[1].imports[0];
      assert g.Target(1, e.req) == 0 && e.name == Some(X);
      assert Linker.ImportResolves(g, 1, e) && Linker.SlotOf(g, 1, e) == BindingOf(Exporter());
    }
  }

  lemma RingInstantiated(g: Graph, x: Id)
    requires g == Ring().g && x < 3
    ensures Linker.StaysInstantiated(g, x, RingRecord(x))
  {
    RingSlots(g, x);
    RingCycle(g, x);
    hide Linker.SlotsResolved, OnCycle, Ring;
  }

  lemma RingShape(g: Graph)
    requires g == Ring().g
    ensures |RingStart().recs| == 3 == |g.mods|
    ensures forall x: Id | x < 3 ::
        g.Cyclic(x) && RingStart().recs[x] == RingRecord(x) && Linker.Past(RingRecord(x).status) && !RingRecord(x).status.New?
    ensures Imports(g)(0) == [1, 2] && Imports(g)(1) == [0] && Imports(g)(2) == []
  {
  }

  lemma RingGone(g: Graph)
    requires g == Ring().g
    ensures Linker.Gone(g, RingStart().recs) == {0, 1, 2} && Linker.LoadsSucceeded(g, RingStart().recs)
    ensures Closed(Imports(g), {0, 1, 2})
  {
    RingShape(g);
    hide RingRecord, Ring, RingStart, Linker.Past;
    assert forall x: Id | x < 3 :: g.Requested(x) == Imports(g)(x);
  }

  lemma RingLinked(g: Graph)
    requires g == Ring().g
    ensures LinkedOk(g, RingStart().recs)
  {
    var recs := RingStart().recs;
    RingGone(g);
    hide Linker.StaysInstantiated, Linker.LoadsSucceeded, Linker.Gone, Closed;
    forall x: Id | x < |recs|
      ensures recs[x] == RingRecord(x) && Linker.StaysInstantiated(g, x, recs[x])
    {
      RingInstantiated(g, x);
    }
    hide Ring, RingRecord;
    assert Linker.LinkQuiet(g, recs);
  }

  lemma RingPrepares(w: World)
    requires w == Ring()
    ensures w.g.Loaded() && May(w, Initial(w.g), Links(RingStart()))
  {
    var g, st, st1 := w.g, Initial(w.g), RingStart();
    assert w.g.Loaded();
    assert Prepares(g, st, st1) by {
      hide Ring;
      assert |st.recs| == 3 by { assert |g.mods| == 3 by { RingSize(); } }
      forall x: Id | x < |st.recs| ensures PreparedAt(g, st.recs[x], st1.recs[x], x) { RingPreparedAt(g, x); }
    }
    RingLinked(g);
    hide LinkedOk, Ring, Prepares;
  }

  lemma RingSize()
    ensures |Ring().g.mods| == 3
  {
  }

  lemma RingPreparedAt(g: Graph, x: Id)
    requires g == Ring().g && x < 3
    ensures PreparedAt(g, Fresh(), RingRecord(x), x)
  {
  }

  // ── Evaluating 0 ─────────────────────────────────────────────────────────

  /** 1 finds 0 on the stack. */
  lemma SiblingLooks(w: World, st: State)
    requires w == Ring() && |st.recs| == 3 && st.recs[1] == Entered(RingRecord(1), 1)
    requires st.recs[0].status.Evaluating? && !st.recs[0].asyncEvaluation && st.recs[0].dfsAncestorIndex == 0
    ensures EvaluateRequests(w, st, [0, 1], 1, 0, 2) == Walk(Put(st, 1, st.recs[1].(dfsAncestorIndex := 0)), [0, 1], 2, None)
  {
    assert w.g.Requested(1) == [0] && w.g.Cyclic(0);
    assert InnerModuleEvaluation(w, st, [0, 1], 0, 2) == Walk(st, [0, 1], 2, None) by { hide EvaluateRequests; }
    LoopUnfolds(w, st, [0, 1], 1, 0, 2);
    var st1 := AfterRequest(w, st, 1, 0).0;
    assert EvaluateRequests(w, st1, [0, 1], 1, 1, 2) == Walk(st1, [0, 1], 2, None) by { hide InnerModuleEvaluation; }
    hide InnerModuleEvaluation, EvaluateRequests, Ring;
  }

  /** The call for 0's first request: the body of 1 is entered at once. */
  lemma SiblingEnters(w: World, st: State)
    requires w == Ring() && |st.recs| == 3 && st.recs[1] == RingRecord(1)
    requires st.recs[0].status.Evaluating? && !st.recs[0].asyncEvaluation && st.recs[0].dfsAncestorIndex == 0
    ensures var entered := WalkEntries(w, st, [0], 1, 1);
      |entered| == 1 && |entered[0].recs| == 3 && entered[0].recs[2] == st.recs[2] && entered[0].log == st.log + [Began(1)]
  {
    assert w.g.Cyclic(1) && !w.g.HasTLA(1);
    var st1 := Put(st, 1, Entered(st.recs[1], 1));
    var st2 := Put(st1, 1, st1.recs[1].(dfsAncestorIndex := 0));
    assert [0] + [1] == [0, 1];
    SiblingLooks(w, st1);
    SiblingLoops(w, st1);
    EntriesUnfold(w, st, [0], 1, 1);
    assert RunEntries(w, st2, 1) == [Begin(st2, 1, Over)] by { hide EvaluateRequests, LoopEntries, WalkEntries; }
    hide EvaluateRequests, LoopEntries, WalkEntries, RunEntries, Ring;
    assert [] + [Begin(st2, 1, Over)] == [Begin(st2, 1, Over)];
  }

  /** Its own request, for 0, enters nothing. */
  lemma SiblingLoops(w: World, st: State)
    requires w == Ring() && |st.recs| == 3 && st.recs[0].status.Evaluating?
    ensures LoopEntries(w, st, [0, 1], 1, 0, 2) == []
  {
    assert w.g.Requested(1) == [0] && w.g.Cyclic(0);
    LoopEntriesUnfold(w, st, [0, 1], 1, 0, 2);
    assert WalkEntries(w, st, [0, 1], 0, 2) == [] by { hide InnerModuleEvaluation, AfterRequest, LoopEntries; }
    var child := InnerModuleEvaluation(w, st, [0, 1], 0, 2);
    var st1 := AfterRequest(w, child.st, 1, 0).0;
    assert LoopEntries(w, st1, child.stack, 1, 1, child.index) == [] by { hide InnerModuleEvaluation, AfterRequest, WalkEntries; }
    hide InnerModuleEvaluation, AfterRequest, LoopEntries, WalkEntries, Ring;
  }

  /** So it is the first that the call for 0 enters. */
  lemma RingEntersSibling(w: World)
    requires w == Ring()
    ensures var entered, first := StepEntries(w, RingStart(), Calls(0)), WalkEntries(w, RingEntered(), [0], 1, 1);
      first <= entered
  {
    var st := Opened(RingStart(), 0);
    assert w.g.Cyclic(0) && w.g.Requested(0) == [1, 2] && [] + [0] == [0];
    assert Walks(w, RingStart(), 0) && Target(w, RingStart(), 0) == 0;
    EntriesOpen(w, RingStart(), 0);
    EntriesUnfold(w, st, [], 0, 0);
    LoopEntriesUnfold(w, RingEntered(), [0], 0, 0, 1);
    assert Put(st, 0, Entered(st.recs[0], 0)) == RingEntered();
    hide EvaluateRequests, InnerModuleEvaluation, AfterRequest, LoopEntries, WalkEntries, RunEntries, Ring,
         EvaluateEntries, Target, Walks;
  }

  lemma RingMayCall(w: World)
    requires w == Ring() && w.g.Loaded() && Ready(w.g, RingStart())
    ensures May(w, RingStart(), Calls(0))
  {
    assert forall x: Id :: !w.g.HasTLA(x);
    assert Linker.GraphLinked(w.g, RingStart().recs, 0) by { hide Reach, Ready; }
    hide Ready, Strands, Linker.GraphLinked, Reach;
    assert Resting(w.g, RingStart()) by { ReadyRests(w.g, RingStart()); }
    HostEntry.NoAwaitNeverStrands(w, RingStart(), 0);
  }

  lemma ReadyRests(g: Graph, st: State)
    requires Ready(g, st)
    ensures Resting(g, st)
  {
    hide Resting, LinkedOk;
  }

  lemma RingRuns(w: World)
    requires w == Ring()
    ensures
      && w.g.Loaded()
      && Run(w, Initial(w.g), [Links(RingStart())])
      && After(w, Initial(w.g), [Links(RingStart())]) == RingStart()
    ensures Ready(w.g, RingStart()) && May(w, RingStart(), Calls(0))
  {
    RingPrepares(w);
    InitialReady(w.g);
    var steps := [Links(RingStart())];
    assert steps[1..] == [] && Next(w, Initial(w.g), steps[0]) == RingStart();
    assert Run(w, RingStart(), []) && After(w, RingStart(), []) == RingStart();
    hide Ready, May, Next, Ring, RingStart;
    NextReady(w, Initial(w.g), steps[0]);
    RingMayCall(w);
  }

  /** 0 has been entered and handed out its promise. */
  function RingEntered(): State {
    Put(Opened(RingStart(), 0), 0, Entered(RingRecord(0).(topLevelCapability := Pending), 0))
  }

  /** In a run of the loader, the body of 1 is entered while the module its import resolves
      to has no environment, and a read of that import fails then for want of a getter. */
  lemma SiblingReadsTooEarly(w: World, h: Heap)
    requires w == Ring()
    ensures
      && w.g.Loaded()
      && Run(w, Initial(w.g), [Links(RingStart())])
      && After(w, Initial(w.g), [Links(RingStart())]) == RingStart()
    ensures ImportReads(w.g, RingStart().recs, 1, 0, Exporter())
    ensures exists s ::
        Observed(w, RingStart(), s) && s.log == [Began(1)] && ReadBinding(w.g, s.recs, h, 2, X).NoGetter?
  {
    RingRuns(w);
    RingReads(w);
    RingIsEntered();
    SiblingEnters(w, RingEntered());
    RingEntersSibling(w);
    var entered, first := StepEntries(w, RingStart(), Calls(0)), WalkEntries(w, RingEntered(), [0], 1, 1);
    hide *;
    assert first[0] == entered[0];
    NoGetterYet(w, first[0].recs, h);
    InTheMiddle(w, RingStart(), Calls(0), first[0]);
    assert [] + [Began(1)] == [Began(1)];
  }

  lemma InTheMiddle(w: World, st: State, step: Step, s: State)
    requires May(w, st, step) && s in StepEntries(w, st, step)
    ensures Observed(w, st, s)
  {
    hide May, StepEntries;
  }

  lemma RingReads(w: World)
    requires w == Ring()
    ensures ImportReads(w.g, RingStart().recs, 1, 0, Exporter())
  {
  }

  lemma RingIsEntered()
    ensures var st := RingEntered();
      && |st.recs| == 3 && st.recs[1] == RingRecord(1) && st.recs[2] == RingRecord(2) && st.recs[2].getters.None?
      && st.recs[0].status.Evaluating? && !st.recs[0].asyncEvaluation && st.recs[0].dfsAncestorIndex == 0
      && st.log == []
  {
  }

  lemma NoGetterYet(w: World, recs: seq<Rec>, h: Heap)
    requires w == Ring() && |recs| == 3 && recs[2].getters.None?
    ensures ReadBinding(w.g, recs, h, 2, X).NoGetter?
  {
    assert w.g.Cyclic(2);
  }
}
