/** How far a failure spreads, and the one way it can go wrong: a synchronous throw
    past a module that some unsettled module already has as a parent. */
module Failures {
  import opened ModuleGraph
  import opened Reachability
  import opened Records
  import opened Evaluation
  import opened AsyncState
  import opened Descend
  import opened EvaluateCall
  import opened Wake
  import opened Moves
  import opened Runs
  import Linker

  // ── A failing body marks its unsettled asynchronous ancestors, and no others ──

  ghost function ErroredRoots(recs: Recs): set<Id> {
    set x | x in IdsBelow(|recs|) && Rooted(recs, x) && Errored(recs, x)
  }

  /** All that waits on a failed module has failed. */
  lemma ErrorsClosed(g: Graph, recs: Recs)
    requires Structure(g, recs, [])
    ensures Closed(ParentEdges(recs), ErroredRoots(recs))
  {
    hide Reach, RootsOk, RequestsMet, CycleParents, RecordOk;
    forall x: Id, p: Id | x in ErroredRoots(recs) && p in ParentEdges(recs)(x) ensures p in ErroredRoots(recs) {
      assert EdgeOk(g, recs, [], x, p);
    }
  }

  ghost function HitSet(recs: Recs, recs1: Recs): set<Id> {
    set x | x in IdsBelow(|recs|) && Hit(recs, recs1, x)
  }

  /** What a failure of `m` has reached: exactly the unsettled modules above `m`. */
  lemma FailureIsExact(g: Graph, recs: Recs, recs1: Recs, m: Id, e: Error, x: Id)
    requires Structure(g, recs, []) && Waiting(recs, m) && FailedFrom(recs, recs1, m, e)
    ensures Hit(recs, recs1, x) <==> Waiting(recs, x) && Reach(ParentEdges(recs), m, x)
  {
    HitWaits(g, recs, recs1, m, e);
    if Waiting(recs, x) && Reach(ParentEdges(recs), m, x) && !Hit(recs, recs1, x) {
      var u, v := ReachExit(ParentEdges(recs), HitSet(recs, recs1), m, x);
      ExitIsErrored(g, recs, recs1, m, e, u, v);
      ErrorsClosed(g, recs);
      hide Structure, FailedFrom;
      ClosedReach(ParentEdges(recs), ErroredRoots(recs), v, x);
      WaitingIsFine(g, recs, x);
    }
  }

  lemma WaitingIsFine(g: Graph, recs: Recs, x: Id)
    requires Structure(g, recs, []) && Waiting(recs, x)
    ensures !Errored(recs, x)
  {
    hide RootsOk, RequestsMet, EdgesUp, ErrorsUp, CycleParents;
    assert RecordOk(g, x, recs[x], false);
  }

  lemma ExitIsErrored(g: Graph, recs: Recs, recs1: Recs, m: Id, e: Error, u: Id, v: Id)
    requires Structure(g, recs, []) && Waiting(recs, m) && FailedFrom(recs, recs1, m, e)
    requires u in HitSet(recs, recs1) && v !in HitSet(recs, recs1) && v in ParentEdges(recs)(u)
    ensures v in ErroredRoots(recs)
  {
    HitWaits(g, recs, recs1, m, e);
    HitParents(g, recs, recs1, m, e, u, v);
    hide Reach, RootsOk, RequestsMet, ErrorsUp, CycleParents, FailClosed;
    assert RecordOk(g, u, recs[u], false);
    assert EdgeOk(g, recs, [], u, v);
    assert RecFails(recs, recs1, e, v);
  }

  /** When a started body rejects, it is over; exactly its unsettled transitive ancestors
      take the error, each pending capability among them is rejected with it, and nothing
      else about any record changes. */
  lemma RejectionReaches(w: World, steps: seq<Step>, m: Id, e: Error, x: Id)
    requires w.g.Loaded() && Run(w, Initial(w.g), steps)
    requires var recs := After(w, Initial(w.g), steps).recs; Waiting(recs, m) && recs[m].body.Running? && x < |recs|
    ensures var st := After(w, Initial(w.g), steps);
      var st1 := SettleError(w, st, m, e);
      var a := if x == m then st.recs[x].(body := Over) else st.recs[x];
      && x < |st1.recs|
      && st1.recs[x] == if Waiting(st.recs, x) && Reach(ParentEdges(st.recs), m, x) then FailedRec(a, e) else a
  {
    Reached(w, steps);
    var st := After(w, Initial(w.g), steps);
    hide After, Run, AsyncReachesTLA, Reach;
    var st1 := Put(st, m, Get(st, m).(body := Over));
    BodyOver(w.g, st, m);
    hide Books, BooksBut, Quiescent;
    FailFrom(w, st1, m, e);
    var st2 := FailModule(w, st1, m, e);
    FailureIsExact(w.g, st1.recs, st2.recs, m, e, x);
    SameEdges(st.recs, st1.recs, m, x);
    hide FailModule, Structure;
    assert RecFails(st1.recs, st2.recs, e, x);
  }

  lemma SameEdges(recs: Recs, recs1: Recs, m: Id, x: Id)
    requires SameLinks(recs, recs1)
    ensures Waiting(recs, x) == Waiting(recs1, x)
    ensures Reach(ParentEdges(recs), m, x) <==> Reach(ParentEdges(recs1), m, x)
  {
    LinkFacts(recs, recs1);
    hide SameLinks, Reach;
    if Reach(ParentEdges(recs), m, x) { SameEdgesReach(ParentEdges(recs), ParentEdges(recs1), m, x); }
    if Reach(ParentEdges(recs1), m, x) { SameEdgesReach(ParentEdges(recs1), ParentEdges(recs), m, x); }
  }

  /** The same for a body that throws while the ready ancestors are run: it has been entered
      and is over, and exactly its unsettled transitive ancestors take the error. */
  lemma ReadyFailureReaches(w: World, st: State, queue: seq<Id>, x: Id)
    requires
      && Awake(w.g, st, queue)
      && queue != []
      && Waiting(st.recs, queue[0])
      && !w.g.HasTLA(queue[0])
      && queue[0] in w.fails
    requires x < |st.recs|
    ensures var p, st1 := queue[0], RunReady(w, st, queue[0]);
      var a := if x == p then Begin(st, p, Over).recs[p] else st.recs[x];
      && x < |st1.recs|
      && st1.recs[x] == if Waiting(st.recs, x) && Reach(ParentEdges(st.recs), p, x) then FailedRec(a, w.fails[p]) else a
  {
    FirstFacts(w.g, st, queue);
    var p, st1 := queue[0], Begin(st, queue[0], Over);
    hide Books, FailedFrom, FailModule, QueueCounts, StartedFree, InOrder, QueuedOk;
    StartedStructure(w.g, st.recs, p, st1.recs[p]);
    hide Structure, Waking, Awake;
    FailFrom(w, st1, p, w.fails[p]);
    var st2 := FailModule(w, st1, p, w.fails[p]);
    FailureIsExact(w.g, st1.recs, st2.recs, p, w.fails[p], x);
    SameEdges(st.recs, st1.recs, p, x);
    FailedCarries(st1.recs, st2.recs, p, w.fails[p], x);
    hide SameLinks, Reach;
  }

  lemma FailedCarries(recs: Recs, recs1: Recs, m: Id, e: Error, x: Id)
    requires FailedFrom(recs, recs1, m, e) && x < |recs|
    ensures |recs1| == |recs| && recs1[x] == if Hit(recs, recs1, x) then FailedRec(recs[x], e) else recs[x]
  {
    hide Reach, FailClosed;
    assert RecFails(recs, recs1, e, x);
  }

  /** A module already in `execList` when a failure reaches it is passed over. */
  lemma QueuedFailureIsSkipped(w: World, st: State, queue: seq<Id>, x: Id)
    requires Awake(w.g, st, queue) && x < |st.recs| && st.recs[x].status.Evaluated? && st.recs[x].body.Unstarted?
    ensures var st1 := RunAllReady(w, st, queue); x < |st1.recs| && st1.recs[x].body.Unstarted? && st1.recs[x].error == st.recs[x].error
  {
    RunAllOnward(w, st, queue);
    hide Awake, RunAllReady;
    assert EvolvesAt(st.recs, RunAllReady(w, st, queue).recs, x);
  }

  // ── H2 ───────────────────────────────────────────────────────────────────

  lemma {:induction false} GatherLists(w: World, st: State, ps: seq<Id>, list: seq<Id>)
    ensures var r := Gather(w, st, ps, list);
      && |r.st.recs| == |st.recs| && (forall x: Id :: Rooted(r.st.recs, x) == Rooted(st.recs, x))
      && (forall x | x in r.list :: x in list || Rooted(st.recs, x))
    decreases Ungathered(st, list), |ps|
  {
    if ps != [] {
      var p := ps[0];
      var r := Get(st, p);
      if p in list || r.cycleRoot.None? {
        if p in list { GatherLists(w, st, ps[1..], list); }
      } else if Get(st, r.cycleRoot.value).hasError {
        GatherLists(w, st, ps[1..], list);
      } else {
        var st1 := Put(st, p, r.(pendingAsyncDependencies := r.pendingAsyncDependencies - 1));
        if r.pendingAsyncDependencies - 1 != 0 {
          assert Ungathered(st1, list) == Ungathered(st, list);
          GatherLists(w, st1, ps[1..], list);
        } else {
          var list1 := list + [p];
          assert p in Ungathered(st, list) && p !in Ungathered(st1, list1);
          assert Ungathered(st1, list1) <= Ungathered(st, list);
          if w.g.HasTLA(p) {
            GatherLists(w, st1, ps[1..], list1);
          } else {
            GatherLists(w, st1, r.asyncParentModules, list1);
            var inner := Gather(w, st1, r.asyncParentModules, list1);
            if !inner.crashed {
              assert Ungathered(inner.st, inner.list) <= Ungathered(st1, list1);
              GatherLists(w, inner.st, ps[1..], inner.list);
            }
          }
        }
      }
    }
  }

  /** The walk over ancestors fails as soon as it meets a parent without a cycle root. */
  lemma {:induction false} GatherCrashes(w: World, st: State, ps: seq<Id>, list: seq<Id>, q: Id)
    requires q in ps && q !in list && !Rooted(st.recs, q)
    ensures Gather(w, st, ps, list).crashed
    decreases Ungathered(st, list), |ps|
  {
    var p := ps[0];
    var r := Get(st, p);
    if p == q {
    } else if p in list || (r.cycleRoot.Some? && Get(st, r.cycleRoot.value).hasError) {
      GatherCrashes(w, st, ps[1..], list, q);
    } else if r.cycleRoot.Some? {
      var st1 := Put(st, p, r.(pendingAsyncDependencies := r.pendingAsyncDependencies - 1));
      if r.pendingAsyncDependencies - 1 != 0 {
        assert Ungathered(st1, list) == Ungathered(st, list);
        GatherCrashes(w, st1, ps[1..], list, q);
      } else {
        var list1 := list + [p];
        assert p in Ungathered(st, list) && p !in Ungathered(st1, list1);
        assert Ungathered(st1, list1) <= Ungathered(st, list);
        if w.g.HasTLA(p) {
          GatherCrashes(w, st1, ps[1..], list1, q);
        } else {
          var inner := Gather(w, st1, r.asyncParentModules, list1);
          GatherLists(w, st1, r.asyncParentModules, list1);
          if !inner.crashed {
            assert Ungathered(inner.st, inner.list) <= Ungathered(st1, list1);
            GatherCrashes(w, inner.st, ps[1..], inner.list, q);
          }
        }
      }
    }
  }

  /** Whenever a suspended module has a parent without a cycle root, its fulfilment
      reads a property of `undefined`. */
  lemma StrandedParentCrashes(w: World, st: State, m: Id, p: Id)
    requires m < |st.recs| && !st.recs[m].status.Evaluated?
    requires p in Parents(st.recs, m) && !Rooted(st.recs, p)
    ensures SettleOk(w, st, m).crashed
  {
    var st1 := Complete(Put(st, m, Get(st, m).(body := Over)), m);
    hide Gather;
    GatherCrashes(w, st1, Parents(st.recs, m), [], p);
  }

  // A module 0 imports 1, which has top-level await, and then 2, which throws.

  function Source(requested: seq<Id>, hasTLA: bool): Module {
    SourceText(requested, [], [], [], [], hasTLA)
  }

  function Unlucky(): World {
    World(Graph([Source([1, 2], false), Source([], true), Source([], false)]), map[2 := 7])
  }

  function UnluckyRecord(): Rec {
    Fresh().(status := Linked, code := Plain)
  }

  /** Nothing has run; the three modules are linked. */
  function UnluckyStart(): State {
    State(seq(3, _ => UnluckyRecord()), 0, 0, [])
  }

  lemma UnluckyLinks(w: World)
    requires w == Unlucky()
    ensures w.g.Loaded() && Prepares(w.g, Initial(w.g), UnluckyStart()) && Ready(w.g, UnluckyStart())
    ensures Linker.GraphLinked(w.g, UnluckyStart().recs, 0)
  {
    assert w.g.Loaded();
    assert Linker.GraphLinked(w.g, UnluckyStart().recs, 0) by { hide Reach; }
    hide LinkedOk, Prepares, Resting, Linker.GraphLinked;
    UnluckyLinked(w.g);
    UnluckyPrepares(w.g);
    InitialRests(w.g);
    PreparedRests(w.g, Initial(w.g), UnluckyStart());
  }

  lemma UnluckyPrepares(g: Graph)
    requires g == Unlucky().g
    ensures Prepares(g, Initial(g), UnluckyStart())
  {
    var st, st1 := Initial(g), UnluckyStart();
    forall x: Id | x < |st.recs| ensures PreparedAt(g, st.recs[x], st1.recs[x], x) {
      assert st.recs[x] == Fresh() && st1.recs[x] == UnluckyRecord();
    }
  }

  lemma UnluckyInstantiated(g: Graph, x: Id)
    requires g == Unlucky().g && x < 3
    ensures Linker.StaysInstantiated(g, x, UnluckyRecord())
  {
    UnluckyCycle(g, x);
    hide OnCycle;
  }

  lemma UnluckyShape(g: Graph)
    requires g == Unlucky().g
    ensures |UnluckyStart().recs| == 3 == |g.mods|
    ensures forall x: Id | x < 3 ::
        && g.Cyclic(x) && UnluckyStart().recs[x] == UnluckyRecord()
        && Linker.Past(UnluckyRecord().status) && !UnluckyRecord().status.New?
    ensures Imports(g)(0) == [1, 2] && Imports(g)(1) == [] && Imports(g)(2) == []
  {
    assert g.mods[0] == Source([1, 2], false) && g.mods[1] == Source([], true) && g.mods[2] == Source([], false);
    assert Linker.Past(UnluckyRecord().status);
  }

  lemma UnluckyGone(g: Graph)
    requires g == Unlucky().g
    ensures Linker.LoadsSucceeded(g, UnluckyStart().recs) && Linker.Gone(g, UnluckyStart().recs) == {0, 1, 2}
    ensures Closed(Imports(g), {0, 1, 2})
  {
    UnluckyShape(g);
    hide UnluckyRecord, Unlucky, UnluckyStart, Linker.Past;
    assert forall x: Id | x < 3 :: g.Requested(x) == Imports(g)(x);
  }

  lemma UnluckyLinked(g: Graph)
    requires g == Unlucky().g
    ensures LinkedOk(g, UnluckyStart().recs)
  {
    var recs := UnluckyStart().recs;
    UnluckyShape(g);
    UnluckyGone(g);
    hide UnluckyStart, Unlucky, UnluckyRecord, Linker.StaysInstantiated, Linker.LoadsSucceeded, Linker.Gone, Closed;
    forall x: Id | x < |recs| ensures Linker.StaysInstantiated(g, x, recs[x]) { UnluckyInstantiated(g, x); }
    assert Linker.LinkQuiet(g, recs);
  }

  lemma UnluckyCycle(g: Graph, x: Id)
    requires g == Unlucky().g && x < 3
    ensures !OnCycle(Imports(g), x)
  {
    forall y | y in Imports(g)(x) ensures !Reach(Imports(g), y, x) {
      assert Imports(g)(y) == [];
      if Reach(Imports(g), y, x) { ReachFromSink(Imports(g), y, x); }
    }
  }

  /** 1 has no requests, so it is suspended at once and popped. */
  lemma UnluckyFinish(w: World, st: State)
    requires w == Unlucky() && |st.recs| == 3 && st.recs[1] == Entered(UnluckyRecord(), 1)
    ensures var r := FinishCall(w, st, [0, 1], 1, 2);
      && r.thrown.None? && r.stack == [0] && r.index == 2 && |r.st.recs| == 3
      && r.st.recs[0] == st.recs[0] && r.st.recs[2] == st.recs[2]
      && r.st.recs[1].status.EvaluatingAsync? && r.st.recs[1].cycleRoot == Some(1) && !r.st.recs[1].hasError
      && r.st.recs[1].body.Running? && r.st.recs[1].asyncEvaluation && r.st.recs[1].asyncParentModules == []
  {
    assert w.g.HasTLA(1);
    var st1 := RunBody(w, st, 1).0;
    assert st1.recs[1].asyncEvaluation && st1.recs[1].dfsAncestorIndex == st1.recs[1].dfsIndex == 1;
    assert [0, 1][..1] == [0];
    assert PopTo(st1, [0, 1], 1) == (Put(st1, 1, Popped(Get(st1, 1), 1)), [0]);
  }

  lemma NoRequests(w: World, st: State, s: seq<Id>, m: Id, index: int)
    requires w.g.Requested(m) == []
    ensures EvaluateRequests(w, st, s, m, 0, index) == Walk(st, s, index, None)
  {
    hide InnerModuleEvaluation;
  }

  lemma UnluckyFirst(w: World, st: State)
    requires w == Unlucky() && |st.recs| == 3 && st.recs[1] == UnluckyRecord()
    ensures var st1 := Put(st, 0, Entered(st.recs[0], 0));
      var r := InnerModuleEvaluation(w, st1, [0], 1, 1);
      && r.thrown.None? && r.stack == [0] && r.index == 2 && |r.st.recs| == 3
      && r.st.recs[0] == st1.recs[0] && r.st.recs[2] == st1.recs[2]
      && r.st.recs[1].status.EvaluatingAsync? && r.st.recs[1].cycleRoot == Some(1) && !r.st.recs[1].hasError
      && r.st.recs[1].body.Running? && r.st.recs[1].asyncEvaluation && r.st.recs[1].asyncParentModules == []
  {
    var st1 := Put(st, 0, Entered(st.recs[0], 0));
    assert w.g.Requested(1) == [] && w.g.Cyclic(1);
    hide InnerModuleEvaluation, EvaluateRequests, FinishCall, Unlucky;
    FreshUnfolds(w, st1, [0], 1, 1);
    var st2 := Put(st1, 1, Entered(st1.recs[1], 1));
    assert [0] + [1] == [0, 1];
    NoRequests(w, st2, [0, 1], 1, 2);
    UnluckyFinish(w, st2);
  }

  lemma UnluckySecond(w: World, st: State, s: seq<Id>)
    requires w == Unlucky() && |st.recs| == 3 && st.recs[2] == UnluckyRecord()
    ensures var r := InnerModuleEvaluation(w, st, s, 2, 2);
      && r.thrown == Some(7) && r.stack == s + [2] && |r.st.recs| == 3
      && r.st.recs[0] == st.recs[0] && r.st.recs[1] == st.recs[1]
  {
    assert w.g.Requested(2) == [] && w.g.Cyclic(2) && !w.g.HasTLA(2);
    FreshUnfolds(w, st, s, 2, 2);
    var st2 := Put(st, 2, Entered(st.recs[2], 2));
    NoRequests(w, st2, s + [2], 2, 3);
    hide InnerModuleEvaluation, EvaluateRequests, PopTo;
  }

  /** After its first request, 0 waits for 1. */
  lemma UnluckyWaits(w: World, st: State)
    requires w == Unlucky() && st == Opened(UnluckyStart(), 0)
    ensures var st1 := Put(st, 0, Entered(st.recs[0], 0));
      var st2 := AfterRequest(w, InnerModuleEvaluation(w, st1, [0], 1, 1).st, 0, 1).0;
      && EvaluateRequests(w, st1, [0], 0, 0, 1) == EvaluateRequests(w, st2, [0], 0, 1, 2)
      && |st2.recs| == 3 && Parents(st2.recs, 1) == [0] && st2.recs[2] == UnluckyRecord() && st2.recs[0].cycleRoot.None?
      && Waiting(st2.recs, 1) && st2.recs[1].body.Running?
  {
    var st1 := Put(st, 0, Entered(st.recs[0], 0));
    UnluckyFirst(w, st);
    LoopUnfolds(w, st1, [0], 0, 0, 1);
    hide InnerModuleEvaluation, EvaluateRequests;
  }

  lemma UnluckyOpens(w: World, st: State)
    requires w == Unlucky() && st == UnluckyStart()
    ensures var st1 := Put(Opened(st, 0), 0, Entered(Opened(st, 0).recs[0], 0));
      var looped := EvaluateRequests(w, st1, [0], 0, 0, 1);
      Attempt(w, st, 0) == if looped.thrown.Some? then looped else FinishCall(w, looped.st, looped.stack, 0, looped.index)
    ensures w.g.Requested(0) == [1, 2] && |st.recs| == 3
  {
    assert w.g.Cyclic(0) && [] + [0] == [0];
    FreshUnfolds(w, Opened(st, 0), [], 0, 0);
    hide InnerModuleEvaluation, EvaluateRequests, FinishCall;
  }

  lemma UnluckyThrows(w: World, st: State)
    requires w == Unlucky() && st == UnluckyStart()
    ensures var b := Attempt(w, st, 0);
      && b.thrown == Some(7) && b.stack == [0, 2] && |b.st.recs| == 3
      && Waiting(b.st.recs, 1) && b.st.recs[1].body.Running? && Parents(b.st.recs, 1) == [0] && b.st.recs[0].cycleRoot.None?
  {
    var st0 := Opened(st, 0);
    var st1 := Put(st0, 0, Entered(st0.recs[0], 0));
    UnluckyOpens(w, st);
    UnluckyWaits(w, st0);
    var st2 := AfterRequest(w, InnerModuleEvaluation(w, st1, [0], 1, 1).st, 0, 1).0;
    LoopUnfolds(w, st2, [0], 0, 1, 2);
    UnluckySecond(w, st2, [0]);
    assert [0] + [2] == [0, 2];
    hide InnerModuleEvaluation, EvaluateRequests, AfterRequest, FinishCall, Attempt, Unlucky, UnluckyStart, Opened;
  }

  lemma UnluckyUnwinds(w: World, b: Walk)
    requires b.stack == [0, 2] && |b.st.recs| == 3
    requires
      && Waiting(b.st.recs, 1)
      && b.st.recs[1].body.Running?
      && Parents(b.st.recs, 1) == [0]
      && b.st.recs[0].cycleRoot.None?
    ensures var st1 := RejectCapability(FailAll(b.st, b.stack, 7), 0, 7);
      |st1.recs| == 3 && st1.recs[1].body.Running? && SettleOk(w, st1, 1).crashed
  {
    FailAllOk(b.st, b.stack, 7);
    var st1 := FailAll(b.st, b.stack, 7);
    hide FailAll, SettleOk, RejectCapability;
    RejectLinks(st1, 0, 7);
    var st2 := RejectCapability(st1, 0, 7);
    LinkFacts(st1.recs, st2.recs);
    assert Parents(st1.recs, 1) == [0] && !Rooted(st1.recs, 0) && Waiting(st1.recs, 1);
    hide SameLinks, FailedAll;
    StrandedParentCrashes(w, st2, 1, 0);
  }

  /** The throw of 2 unwinds 0, which 1 has as a parent, and when 1 fulfils the walk over
      its ancestors fails: without H2 neither the invariants nor the host's step survive. */
  lemma UnluckyCrashes(w: World)
    requires w == Unlucky()
    ensures var st := UnluckyStart();
      var st1 := Evaluate(w, st, 0);
      && w.g.Loaded() && Ready(w.g, st) && Linker.GraphLinked(w.g, st.recs, 0) && Strands(w, st, 0) && !Resting(w.g, st1)
      && |st1.recs| == 3 && st1.recs[1].body.Running? && SettleOk(w, st1, 1).crashed
  {
    var st := UnluckyStart();
    UnluckyLinks(w);
    UnluckyTarget(w, st);
    UnluckyThrows(w, st);
    EvaluateUnfolds(w, st, 0);
    var b := Attempt(w, st, 0);
    assert 0 in Parents(b.st.recs, 1) && 0 in b.stack;
    assert Caught(w, b, 0) == RejectCapability(FailAll(b.st, b.stack, 7), 0, 7) by { hide RejectCapability, FailAll, Attempt; }
    assert Strands(w, st, 0) by { hide Attempt; }
    assert Resting(w.g, st);
    hide *;
    UnluckyUnwinds(w, b);
    EvaluateRests(w, st, 0);
  }

  lemma UnluckyTarget(w: World, st: State)
    requires w == Unlucky() && st == UnluckyStart()
    ensures Target(w, st, 0) == 0 && w.g.Cyclic(0) && Walks(w, st, 0) && 0 < |st.recs|
  {
  }

  lemma RejectLinks(st: State, t: Id, e: Error)
    ensures SameLinks(st.recs, RejectCapability(st, t, e).recs)
    ensures forall x: Id | x < |st.recs| :: RejectCapability(st, t, e).recs[x].body == st.recs[x].body
  {
  }
}
