/** Where errors come from: whatever error a record, a promise or a throw has, some module
    below has thrown it; and whatever a body throws, its module has as its error. */
module Blame {
  import opened ModuleGraph
  import opened Reachability
  import opened Records
  import opened Evaluation
  import opened AsyncState
  import opened Descend
  import opened Ascend
  import opened EvaluateCall
  import opened Wake
  import opened Runs
  import M = Moves
  import Scc

  // ── Who threw what ───────────────────────────────────────────────────────

  /** The body of `y` throws when it is entered. */
  predicate Faulty(w: World, y: Id) {
    y in w.fails && !w.g.HasTLA(y)
  }

  predicate Ran(recs: Recs, y: Id) {
    y < |recs| && !recs[y].body.Unstarted?
  }

  /** What the host has done so far: whose suspended bodies it has settled, and with what
      errors it has rejected some of their promises. */
  datatype Settlements = Settlements(settled: set<Id>, rejected: set<(Id, Error)>)

  /** `e` is what the body of `y` threw, or what its promise was rejected with. */
  predicate Threw(w: World, told: Settlements, recs: Recs, y: Id, e: Error) {
    (y, e) in told.rejected || (Faulty(w, y) && Ran(recs, y) && w.fails[y] == e)
  }

  /** Some module below `x` threw `e`. */
  ghost predicate Caused(w: World, told: Settlements, recs: Recs, x: Id, e: Error) {
    exists y: Id :: Reach(Imports(w.g), x, y) && Threw(w, told, recs, y, e)
  }

  ghost predicate CausedAt(w: World, told: Settlements, recs: Recs, x: Id) {
    x < |recs| ==>
      && (recs[x].hasError ==> Caused(w, told, recs, x, recs[x].error))
      && (recs[x].topLevelCapability.Rejected? ==> Caused(w, told, recs, x, recs[x].topLevelCapability.error))
      && (w.g.HasTLA(x) && recs[x].body.Over? ==> x in told.settled)
  }

  ghost predicate AllCaused(w: World, told: Settlements, recs: Recs) {
    forall x: Id {:trigger CausedAt(w, told, recs, x)} :: CausedAt(w, told, recs, x)
  }

  /** What the body of `x` threw is its error, or is about to be: `x` is on the stack that
      the error `e` unwinds. */
  ghost predicate ToldAt(w: World, recs: Recs, s: seq<Id>, e: Error, x: Id) {
    Faulty(w, x) && Ran(recs, x) ==> (recs[x].hasError && recs[x].error == w.fails[x]) || (x in s && w.fails[x] == e)
  }

  ghost predicate AllTold(w: World, recs: Recs, s: seq<Id>, e: Error) {
    forall x: Id {:trigger ToldAt(w, recs, s, e, x)} :: ToldAt(w, recs, s, e, x)
  }

  // ── Steps that bring no error ────────────────────────────────────────────

  ghost predicate CleanAt(w: World, r0: Recs, r1: Recs, s: seq<Id>, e: Error, x: Id)
    requires x < |r0| == |r1|
  {
    && r1[x].hasError == r0[x].hasError && r1[x].error == r0[x].error
    && (r1[x].topLevelCapability.Rejected? ==> r1[x].topLevelCapability == r0[x].topLevelCapability)
    && (Ran(r0, x) ==> Ran(r1, x))
    && (w.g.HasTLA(x) && r1[x].body.Over? ==> r0[x].body.Over?)
    && (Ran(r1, x) && !Ran(r0, x) && Faulty(w, x) ==> x in s && w.fails[x] == e)
  }

  /** No record gets an error, and of the bodies that throw only those of modules on the stack
      `s`, with the error `e`, are entered. */
  ghost predicate Clean(w: World, r0: Recs, r1: Recs, s: seq<Id>, e: Error) {
    |r0| == |r1| && forall x: Id {:trigger CleanAt(w, r0, r1, s, e, x)} | x < |r0| :: CleanAt(w, r0, r1, s, e, x)
  }

  lemma CleanTrans(w: World, r0: Recs, r1: Recs, r2: Recs, s: seq<Id>, e: Error)
    requires Clean(w, r0, r1, [], 0) && Clean(w, r1, r2, s, e)
    ensures Clean(w, r0, r2, s, e)
  {
    forall x: Id | x < |r0| ensures CleanAt(w, r0, r2, s, e, x) {
      assert CleanAt(w, r0, r1, [], 0, x) && CleanAt(w, r1, r2, s, e, x);
    }
  }

  lemma CleanCaused(w: World, told: Settlements, r0: Recs, r1: Recs, s: seq<Id>, e: Error)
    requires Clean(w, r0, r1, s, e) && AllCaused(w, told, r0)
    ensures AllCaused(w, told, r1)
  {
    forall x: Id ensures CausedAt(w, told, r1, x) {
      if x < |r0| {
        assert CleanAt(w, r0, r1, s, e, x) && CausedAt(w, told, r0, x);
        hide Clean, CleanAt, Caused;
        if r0[x].hasError { CleanCause(w, told, r0, r1, s, e, x, r0[x].error); }
        if r0[x].topLevelCapability.Rejected? { CleanCause(w, told, r0, r1, s, e, x, r0[x].topLevelCapability.error); }
      }
    }
  }

  lemma CleanCause(w: World, told: Settlements, r0: Recs, r1: Recs, s: seq<Id>, e: Error, x: Id, f: Error)
    requires Clean(w, r0, r1, s, e) && Caused(w, told, r0, x, f)
    ensures Caused(w, told, r1, x, f)
  {
    hide Reach;
    var y: Id :| Reach(Imports(w.g), x, y) && Threw(w, told, r0, y, f);
    assert y < |r0| ==> CleanAt(w, r0, r1, s, e, y);
  }

  lemma CleanTold(w: World, r0: Recs, r1: Recs, s: seq<Id>, e: Error)
    requires Clean(w, r0, r1, s, e) && AllTold(w, r0, [], 0)
    ensures AllTold(w, r1, s, e)
  {
    forall x: Id ensures ToldAt(w, r1, s, e, x) {
      assert ToldAt(w, r0, [], 0, x);
      assert x < |r0| ==> CleanAt(w, r0, r1, s, e, x);
    }
  }

  lemma PutClean(w: World, st: State, x: Id, r: Rec)
    requires r.hasError == Get(st, x).hasError && r.error == Get(st, x).error && r.body == Get(st, x).body
    requires r.topLevelCapability.Rejected? ==> r.topLevelCapability == Get(st, x).topLevelCapability
    ensures Clean(w, st.recs, Put(st, x, r).recs, [], 0)
  {
    var r1 := Put(st, x, r).recs;
    forall y: Id | y < |st.recs| ensures CleanAt(w, st.recs, r1, [], 0, y) {}
  }

  lemma CleanRefl(w: World, r: Recs)
    ensures Clean(w, r, r, [], 0)
  {
    forall y: Id | y < |r| ensures CleanAt(w, r, r, [], 0, y) {}
  }

  lemma {:induction false} PopClean(w: World, st: State, s: seq<Id>, m: Id)
    ensures Clean(w, st.recs, PopTo(st, s, m).0.recs, [], 0)
    decreases |s|
  {
    if s == [] {
      CleanRefl(w, st.recs);
    } else {
      var top := s[|s|-1];
      var st1 := Put(st, top, Popped(Get(st, top), m));
      PutClean(w, st, top, Popped(Get(st, top), m));
      hide Clean;
      if top != m {
        PopClean(w, st1, s[..|s|-1], m);
        CleanTrans(w, st.recs, st1.recs, PopTo(st1, s[..|s|-1], m).0.recs, [], 0);
      }
    }
  }

  lemma RegisterClean(w: World, st: State, m: Id, v: Id)
    ensures Clean(w, st.recs, Register(st, m, v).recs, [], 0)
  {
    var st1 := Put(st, m, Get(st, m).(pendingAsyncDependencies := Get(st, m).pendingAsyncDependencies + 1));
    PutClean(w, st, m, Get(st1, m));
    PutClean(w, st1, v, Get(st1, v).(asyncParentModules := Get(st1, v).asyncParentModules + [m]));
    CleanRefl(w, st.recs);
    hide Clean;
    if Get(st, v).asyncEvaluation { CleanTrans(w, st.recs, st1.recs, Register(st, m, v).recs, [], 0); }
  }

  lemma LookClean(w: World, st: State, m: Id, v: Id)
    ensures Clean(w, st.recs, AfterRequest(w, st, m, v).0.recs, [], 0)
  {
    var st1 := Put(st, m, Get(st, m).(dfsAncestorIndex := Min(Get(st, m).dfsAncestorIndex, Get(st, v).dfsAncestorIndex)));
    PutClean(w, st, m, Get(st1, m));
    CleanRefl(w, st.recs);
    hide Clean, Register;
    RegisterClean(w, st1, m, v);
    CleanTrans(w, st.recs, st1.recs, Register(st1, m, v).recs, [], 0);
    if Get(st, v).cycleRoot.Some? { RegisterClean(w, st, m, Get(st, v).cycleRoot.value); }
  }

  lemma RunClean(w: World, st: State, s: seq<Id>, m: Id)
    requires m < |st.recs| && m in s
    ensures var (st1, thrown) := RunBody(w, st, m);
      if thrown.None? then Clean(w, st.recs, st1.recs, [], 0)
      else Clean(w, st.recs, st1.recs, s, thrown.value) && Threw(w, Settlements({}, {}), st1.recs, m, thrown.value)
  {
    var (st1, thrown) := RunBody(w, st, m);
    if thrown.None? {
      forall y: Id | y < |st.recs| ensures CleanAt(w, st.recs, st1.recs, [], 0, y) {}
    } else {
      forall y: Id | y < |st.recs| ensures CleanAt(w, st.recs, st1.recs, s, thrown.value, y) {}
    }
  }

  // ── The whole walk ───────────────────────────────────────────────────────

  ghost predicate Behind(g: Graph, v: Id, s: seq<Id>, y: Id) {
    Reach(Imports(g), v, y) && forall x | x in s :: Reach(Imports(g), x, y)
  }

  /** The error of a walk for `v` has one cause, which everything on the stack reaches. */
  ghost predicate Blamed(w: World, told: Settlements, r: Walk, v: Id) {
    r.thrown.Some? && exists y: Id :: Threw(w, told, r.st.recs, y, r.thrown.value) && Behind(w.g, v, r.stack, y)
  }

  ghost predicate Ends(w: World, told: Settlements, r: Walk, v: Id) {
    AllCaused(w, told, r.st.recs) &&
    if r.thrown.None? then AllTold(w, r.st.recs, [], 0)
    else AllTold(w, r.st.recs, r.stack, r.thrown.value) && Blamed(w, told, r, v)
  }

  /** `v` or something it led to is to blame, and the whole stack leads to `v`. */
  lemma BlameAt(w: World, told: Settlements, r: Walk, v: Id, z: Id)
    requires r.thrown.Some? && Reach(Imports(w.g), v, z) && forall x | x in r.stack :: Reach(Imports(w.g), x, v)
    requires Caused(w, told, r.st.recs, z, r.thrown.value)
    ensures Blamed(w, told, r, v)
  {
    var y: Id :| Reach(Imports(w.g), z, y) && Threw(w, told, r.st.recs, y, r.thrown.value);
    hide Reach, Threw;
    ReachTrans(Imports(w.g), v, z, y);
    forall x | x in r.stack ensures Reach(Imports(w.g), x, y) { ReachTrans(Imports(w.g), x, v, y); }
  }

  lemma BlameAbove(w: World, told: Settlements, r: Walk, m: Id, v: Id)
    requires Ends(w, told, r, v) && r.thrown.Some? && Reach(Imports(w.g), m, v)
    ensures Ends(w, told, r, m)
  {
    hide AllCaused, AllTold, Reach, Threw;
    var y: Id :| Threw(w, told, r.st.recs, y, r.thrown.value) && Behind(w.g, v, r.stack, y);
    ReachTrans(Imports(w.g), m, v, y);
    assert Behind(w.g, m, r.stack, y);
  }

  /** The stack of a call that may be entered leads to what is called. */
  lemma EnterBehind(g: Graph, st: State, s: seq<Id>, gray: set<Id>, v: Id, index: int, t: Id)
    requires MayEnter(g, st, s, gray, v, index, t)
    ensures v < |st.recs| && forall x | x in s :: Reach(Imports(g), x, v)
  {
    hide Evaluates, Scc.Searching, Reach;
  }

  /** A call that is not entered: it hands on the error of its module, if there is one. */
  lemma OldEnds(w: World, told: Settlements, st: State, s: seq<Id>, v: Id, r: Walk)
    requires v < |st.recs| && forall x | x in s :: Reach(Imports(w.g), x, v)
    requires AllCaused(w, told, st.recs) && AllTold(w, st.recs, [], 0)
    requires r.st == st && r.stack == s && r.thrown == if st.recs[v].hasError then Some(st.recs[v].error) else None
    ensures Ends(w, told, r, v)
  {
    if r.thrown.Some? {
      ReachRefl(Imports(w.g), v);
      assert CausedAt(w, told, st.recs, v);
      hide Reach, AllCaused, Caused;
      BlameAt(w, told, r, v, v);
      forall x: Id ensures ToldAt(w, r.st.recs, r.stack, r.thrown.value, x) { assert ToldAt(w, st.recs, [], 0, x); }
    }
  }

  lemma SyntheticEnds(w: World, told: Settlements, st: State, s: seq<Id>, v: Id, index: int)
    requires v < |st.recs| && !w.g.Cyclic(v) && forall x | x in s :: Reach(Imports(w.g), x, v)
    requires AllCaused(w, told, st.recs) && AllTold(w, st.recs, [], 0)
    requires st.recs[v].body.Unstarted? ==> !st.recs[v].hasError
    requires !st.recs[v].body.Running?
    ensures var (st1, thrown) := EvaluateSynthetic(w, st, v); Ends(w, told, Walk(st1, s, index, thrown), v)
  {
    var (st1, thrown) := EvaluateSynthetic(w, st, v);
    var r := Walk(st1, s, index, thrown);
    if st.recs[v].body.Over? {
      OldEnds(w, told, st, s, v, r);
    } else if thrown.None? {
      forall y: Id | y < |st.recs| ensures CleanAt(w, st.recs, st1.recs, [], 0, y) {}
      hide EvaluateSynthetic, AllCaused, AllTold;
      CleanCaused(w, told, st.recs, st1.recs, [], 0);
      CleanTold(w, st.recs, st1.recs, [], 0);
    } else {
      SyntheticThrew(w, told, st, s, v, index);
    }
  }

  lemma SyntheticThrew(w: World, told: Settlements, st: State, s: seq<Id>, v: Id, index: int)
    requires v < |st.recs| && !w.g.Cyclic(v) && forall x | x in s :: Reach(Imports(w.g), x, v)
    requires AllCaused(w, told, st.recs) && AllTold(w, st.recs, [], 0)
    requires st.recs[v].body.Unstarted? && v in w.fails
    ensures var (st1, thrown) := EvaluateSynthetic(w, st, v); Ends(w, told, Walk(st1, s, index, thrown), v)
  {
    var (st1, thrown) := EvaluateSynthetic(w, st, v);
    var e := w.fails[v];
    assert thrown == Some(e) && Threw(w, told, st1.recs, v, e);
    ReachRefl(Imports(w.g), v);
    // as if the body had run with `v` on the stack, and the error were put down then
    var r0 := st.recs[v := st.recs[v].(body := Over)];
    forall y: Id | y < |st.recs| ensures CleanAt(w, st.recs, r0, [v], e, y) {}
    assert st1.recs == r0[v := r0[v].(hasError := true, error := e)];
    hide EvaluateSynthetic, Reach;
    CleanCaused(w, told, st.recs, r0, [v], e);
    CleanTold(w, st.recs, r0, [v], e);
    assert CausedAt(w, told, r0, v);
    MarkedCaused(w, told, r0, v, r0[v].(hasError := true, error := e));
    forall x: Id ensures ToldAt(w, st1.recs, s, e, x) { assert ToldAt(w, r0, [v], e, x); }
    hide AllCaused, AllTold, Threw;
    assert Caused(w, told, st1.recs, v, e);
    BlameAt(w, told, Walk(st1, s, index, thrown), v, v);
  }

  /** One record takes an error that something below it threw. */
  lemma MarkedCaused(w: World, told: Settlements, recs: Recs, x: Id, r: Rec)
    requires AllCaused(w, told, recs) && x < |recs| && (r.body.Unstarted? ==> recs[x].body.Unstarted?)
    requires w.g.HasTLA(x) && r.body.Over? ==> x in told.settled
    requires r.hasError ==> Caused(w, told, recs, x, r.error)
    requires r.topLevelCapability.Rejected? ==> Caused(w, told, recs, x, r.topLevelCapability.error)
    ensures AllCaused(w, told, recs[x := r])
  {
    var r1 := recs[x := r];
    assert forall y: Id | Ran(recs, y) :: Ran(r1, y);
    forall y: Id ensures CausedAt(w, told, r1, y) {
      assert CausedAt(w, told, recs, y);
      hide AllCaused, Caused;
      if y < |r1| && r1[y].hasError { RanCause(w, told, recs, r1, y, r1[y].error); }
      if y < |r1| && r1[y].topLevelCapability.Rejected? { RanCause(w, told, recs, r1, y, r1[y].topLevelCapability.error); }
    }
  }

  lemma RanCause(w: World, told: Settlements, r0: Recs, r1: Recs, x: Id, e: Error)
    requires Caused(w, told, r0, x, e) && forall y: Id | Ran(r0, y) :: Ran(r1, y)
    ensures Caused(w, told, r1, x, e)
  {
    hide Reach, Ran;
    var y: Id :| Reach(Imports(w.g), x, y) && Threw(w, told, r0, y, e);
  }

  lemma {:induction false} WalkEnds(w: World, told: Settlements, st: State, s: seq<Id>, gray: set<Id>, v: Id,
                                    index: int, t: Id)
    requires w.g.Loaded() && MayEnter(w.g, st, s, gray, v, index, t)
    requires AllCaused(w, told, st.recs) && AllTold(w, st.recs, [], 0)
    ensures Ends(w, told, InnerModuleEvaluation(w, st, s, v, index), v)
    decreases Unvisited(st), 0, 1
  {
    EnterBehind(w.g, st, s, gray, v, index, t);
    var r := InnerModuleEvaluation(w, st, s, v, index);
    if w.g.Cyclic(v) && !Visited(st.recs[v].status) {
      var st1 := Put(st, v, Entered(st.recs[v], index));
      PutClean(w, st, v, Entered(st.recs[v], index));
      hide *;
      CleanCaused(w, told, st.recs, st1.recs, [], 0);
      CleanTold(w, st.recs, st1.recs, [], 0);
      EnterCall(w.g, st, s, gray, v, index, t);
      FreshUnfolds(w, st, s, v, index);
      LoopEndsWell(w, told, st, s, st1, s + [v], gray, v, 0, index + 1, t);
      var looped := EvaluateRequests(w, st1, s + [v], v, 0, index + 1);
      LoopOk(w, st, s, st1, s + [v], gray, v, 0, index + 1, t);
      if looped.thrown.None? { FinishEnds(w, told, st, s, looped, gray, v, t); }
    } else if w.g.Cyclic(v) {
      if st.recs[v].status.Evaluating? { VisitedFine(w.g, st, s, gray, v, t) by { hide *; EnterIn(w.g, st, s, gray, v, index, t); } }
      hide MayEnter, AllCaused, AllTold, Reach, EvaluateRequests, FinishCall;
      OldEnds(w, told, st, s, v, r);
    } else {
      SyntheticStarts(w.g, st, s, gray, v, index, t);
      hide MayEnter, AllCaused, AllTold, Reach, EvaluateSynthetic, EvaluateRequests, FinishCall;
      SyntheticEnds(w, told, st, s, v, index);
    }
  }

  lemma EnterIn(g: Graph, st: State, s: seq<Id>, gray: set<Id>, v: Id, index: int, t: Id)
    requires MayEnter(g, st, s, gray, v, index, t)
    ensures Evaluates(g, st, s, gray, None, t)
  {
    hide Evaluates, Scc.Searching, Reach;
  }

  lemma SyntheticStarts(g: Graph, st: State, s: seq<Id>, gray: set<Id>, v: Id, index: int, t: Id)
    requires MayEnter(g, st, s, gray, v, index, t) && v < |st.recs| && !g.Cyclic(v)
    ensures !st.recs[v].body.Running? && (st.recs[v].body.Unstarted? ==> !st.recs[v].hasError)
  {
    EnterIn(g, st, s, gray, v, index, t);
    EvaluatesRecords(g, st, s, gray, None, t);
    hide MayEnter, Evaluates, RootsOk;
    assert RecordOk(g, v, st.recs[v], v in s);
  }

  /** The end of a call whose loop did not throw. */
  lemma FinishEnds(w: World, told: Settlements, st0: State, s0: seq<Id>, looped: Walk, gray: set<Id>, m: Id, t: Id)
    requires looped.thrown.None? && Ends(w, told, looped, m) && LoopEnds(w.g, st0, s0, looped, gray, m, t)
    ensures Ends(w, told, FinishCall(w, looped.st, looped.stack, m, looped.index), m)
  {
    var st, s, index := looped.st, looped.stack, looped.index;
    assert CallLooping(w.g, st0, s0, st, s, gray, m, |w.g.Requested(m)|, index, t) by { hide CallLooping; }
    LoopInside(w.g, st0, s0, st, s, gray, m, |w.g.Requested(m)|, index, t);
    FinishParts(w, st, s, m, index);
    RunClean(w, st, s, m);
    assert AllCaused(w, told, st.recs) && AllTold(w, st.recs, [], 0) by { hide AllCaused, AllTold; }
    hide LoopEnds, CallLooping, RunBody, FinishCall, PopTo, Reach;
    var (st1, thrown) := RunBody(w, st, m);
    var r := FinishCall(w, st, s, m, index);
    if thrown.None? {
      hide AllCaused, AllTold, Clean;
      PopClean(w, st1, s, m);
      CleanRefl(w, st1.recs);
      CleanTrans(w, st.recs, st1.recs, r.st.recs, [], 0);
      CleanCaused(w, told, st.recs, r.st.recs, [], 0);
      CleanTold(w, st.recs, r.st.recs, [], 0);
    } else {
      ReachRefl(Imports(w.g), m);
      hide AllCaused, AllTold, Clean;
      CleanCaused(w, told, st.recs, st1.recs, s, thrown.value);
      CleanTold(w, st.recs, st1.recs, s, thrown.value);
      assert Threw(w, told, st1.recs, m, thrown.value);
      assert Caused(w, told, st1.recs, m, thrown.value);
      BlameAt(w, told, r, m, m);
    }
  }

  lemma FinishParts(w: World, st: State, s: seq<Id>, m: Id, index: int)
    ensures var r, (st1, thrown) := FinishCall(w, st, s, m, index), RunBody(w, st, m);
      if thrown.Some? then r == Walk(st1, s, index, thrown)
      else r.thrown.None? && (r.st == st1 || r.st == PopTo(st1, s, m).0)
  {
    hide RunBody, PopTo;
  }

  /** The caller in its loop: it is on the stack, which leads to it. */
  lemma LoopInside(g: Graph, st0: State, s0: seq<Id>, st: State, s: seq<Id>, gray: set<Id>, m: Id, i: nat, index: int,
                   t: Id)
    requires CallLooping(g, st0, s0, st, s, gray, m, i, index, t)
    ensures m < |st.recs| && m in s && forall x | x in s :: Reach(Imports(g), x, m)
  {
    LoopFacts(g, st0, s0, st, s, gray, m, i, index, t);
    assert Scc.Looping(Imports(g), View(g, st.recs, s), gray, |s0|, m, i) by { hide Evaluates, Scc.Looping, Scc.Extends, Grows, ParentsAbove; }
    hide CallLooping, Reach, Scc.Looping;
    forall x | x in s
      ensures Reach(Imports(g), x, m)
    {
      Scc.StackReaches(Imports(g), View(g, st.recs, s), gray, |s0|, m, i, x);
    }
  }

  lemma {:induction false} LoopEndsWell(w: World, told: Settlements, st0: State, s0: seq<Id>, st: State,
                                        s: seq<Id>, gray: set<Id>, m: Id, i: nat, index: int, t: Id)
    requires w.g.Loaded() && CallLooping(w.g, st0, s0, st, s, gray, m, i, index, t) && i <= |w.g.Requested(m)|
    requires AllCaused(w, told, st.recs) && AllTold(w, st.recs, [], 0)
    ensures Ends(w, told, EvaluateRequests(w, st, s, m, i, index), m)
    decreases Unvisited(st), 1, |w.g.Requested(m)| - i
  {
    hide *;
    if i == |w.g.Requested(m)| {
      LoopOver(w, told, st, s, m, index);
    } else {
      var g, v := w.g, w.g.Requested(m)[i];
      LoopUnfolds(w, st, s, m, i, index);
      RequestReached(g, m, i);
      ChildMayEnter(g, st0, s0, st, s, gray, m, i, index, t);
      var child := InnerModuleEvaluation(w, st, s, v, index);
      WalkOk(w, st, s, gray + {m}, v, index, t);
      WalkEnds(w, told, st, s, gray + {m}, v, index, t);
      var (st1, thrown) := AfterRequest(w, child.st, m, v);
      if child.thrown.Some? {
        BlameAbove(w, told, child, m, v);
      } else {
        EndsCaused(w, told, child, v);
        if thrown.Some? {
          LookBlames(w, told, st0, s0, st, s, child, gray, m, i, index, t);
        } else {
          AfterRequestOk(w, st0, s0, st, s, child.st, child.stack, gray, m, i, index, child.index, t);
          LookClean(w, child.st, m, v);
          CleanCaused(w, told, child.st.recs, st1.recs, [], 0);
          CleanTold(w, child.st.recs, st1.recs, [], 0);
          LoopEndsWell(w, told, st0, s0, st1, child.stack, gray, m, i + 1, child.index, t);
        }
      }
    }
  }

  lemma LoopOver(w: World, told: Settlements, st: State, s: seq<Id>, m: Id, index: int)
    requires AllCaused(w, told, st.recs) && AllTold(w, st.recs, [], 0)
    ensures Ends(w, told, EvaluateRequests(w, st, s, m, |w.g.Requested(m)|, index), m)
  {
    hide AllCaused, AllTold, InnerModuleEvaluation, AfterRequest;
  }

  lemma EndsCaused(w: World, told: Settlements, r: Walk, v: Id)
    requires Ends(w, told, r, v)
    ensures AllCaused(w, told, r.st.recs) && (r.thrown.None? ==> AllTold(w, r.st.recs, [], 0))
  {
    hide AllCaused, AllTold, Blamed;
  }

  lemma RequestReached(g: Graph, m: Id, i: nat)
    requires i < |g.Requested(m)|
    ensures Reach(Imports(g), m, g.Requested(m)[i])
  {
    assert g.Requested(m)[i] in Imports(g)(m);
    ReachEdge(Imports(g), m, g.Requested(m)[i]);
  }

  /** The module finds the cycle of its request failed: the error has a cause below it. */
  lemma LookBlames(w: World, told: Settlements, st0: State, s0: seq<Id>, st: State, s: seq<Id>, child: Walk,
                   gray: set<Id>, m: Id, i: nat, index: int, t: Id)
    requires w.g.Loaded() && CallLooping(w.g, st0, s0, st, s, gray, m, i, index, t) && i < |w.g.Requested(m)|
    requires CallDone(w.g, st, s, child.st, child.stack, gray + {m}, w.g.Requested(m)[i], child.index, t)
    requires AllCaused(w, told, child.st.recs) && AllTold(w, child.st.recs, [], 0)
    requires AfterRequest(w, child.st, m, w.g.Requested(m)[i]).1.Some?
    ensures var (st1, thrown) := AfterRequest(w, child.st, m, w.g.Requested(m)[i]);
      Ends(w, told, Walk(st1, child.stack, child.index, thrown), m)
  {
    hide *;
    var g, v := w.g, w.g.Requested(m)[i];
    var (st1, thrown) := AfterRequest(w, child.st, m, v);
    var z := Root(child.st.recs, v);
    LookFails(w, st, s, child.st, child.stack, gray + {m}, m, v, child.index, t);
    StackBehind(g, st0, s0, st, s, child.st, child.stack, gray, m, i, index, child.index, t);
    RequestReached(g, m, i);
    ReachTrans(Imports(g), m, v, z);
    CauseOf(w, told, child.st.recs, z);
    var r := Walk(st1, child.stack, child.index, thrown);
    BlameAt(w, told, r, m, z);
    ToldMore(w, r.st.recs, r.stack, r.thrown.value);
    EndsThrown(w, told, r, m);
  }

  lemma EndsThrown(w: World, told: Settlements, r: Walk, m: Id)
    requires AllCaused(w, told, r.st.recs) && Blamed(w, told, r, m)
    requires r.thrown.Some? ==> AllTold(w, r.st.recs, r.stack, r.thrown.value)
    ensures Ends(w, told, r, m)
  {
    hide AllCaused, AllTold, Threw, Behind;
  }

  /** Only the error of the request's cycle root is thrown on; a missing root is not met. */
  lemma LookFails(w: World, st: State, s: seq<Id>, st1: State, s1: seq<Id>, gray: set<Id>, m: Id, v: Id, index: int,
                  t: Id)
    requires CallDone(w.g, st, s, st1, s1, gray, v, index, t) && AfterRequest(w, st1, m, v).1.Some?
    ensures AfterRequest(w, st1, m, v).0 == st1 && v !in s1
    ensures var z := Root(st1.recs, v);
      && Errored(st1.recs, z) && AfterRequest(w, st1, m, v).1 == Some(st1.recs[z].error) && Reach(Imports(w.g), v, z)
  {
    ChildPlace(w.g, st, s, st1, s1, gray, v, index, t);
    hide CallDone, Reach;
  }

  lemma CauseOf(w: World, told: Settlements, recs: Recs, z: Id)
    requires AllCaused(w, told, recs) && Errored(recs, z)
    ensures Caused(w, told, recs, z, recs[z].error)
  {
    assert CausedAt(w, told, recs, z);
    hide Caused;
  }

  lemma ToldMore(w: World, recs: Recs, s: seq<Id>, e: Error)
    requires AllTold(w, recs, [], 0)
    ensures AllTold(w, recs, s, e)
  {
    forall x: Id ensures ToldAt(w, recs, s, e, x) { assert ToldAt(w, recs, [], 0, x); }
  }

  /** When the request has left the stack, what is on it leads to the caller. */
  lemma StackBehind(g: Graph, st0: State, s0: seq<Id>, st: State, s: seq<Id>, st1: State, s1: seq<Id>, gray: set<Id>,
                    m: Id, i: nat, index: int, index1: int, t: Id)
    requires CallLooping(g, st0, s0, st, s, gray, m, i, index, t) && i < |g.Requested(m)|
    requires CallDone(g, st, s, st1, s1, gray + {m}, g.Requested(m)[i], index1, t) && g.Requested(m)[i] !in s1
    ensures forall x | x in s1 :: Reach(Imports(g), x, m)
  {
    ChildPlace(g, st, s, st1, s1, gray + {m}, g.Requested(m)[i], index1, t);
    ChildSearch(g, st0, s0, st, s, st1, s1, gray, m, i, index, index1, t);
    hide CallLooping, CallDone, Reach, Scc.Looping, Scc.Returned;
    LoopAfterDone(g, st, s, st1, s1, gray, |s0|, m, i);
    forall x | x in s1
      ensures Reach(Imports(g), x, m)
    {
      Scc.StackReaches(Imports(g), View(g, st1.recs, s1), gray, |s0|, m, i + 1, x);
    }
  }

  // ── A call of evaluate ───────────────────────────────────────────────────

  /** Every error has a cause, and what bodies threw has been recorded. */
  ghost predicate Answered(w: World, told: Settlements, recs: Recs) {
    AllCaused(w, told, recs) && AllTold(w, recs, [], 0)
  }

  lemma CleanAnswered(w: World, told: Settlements, r0: Recs, r1: Recs)
    requires Answered(w, told, r0) && Clean(w, r0, r1, [], 0)
    ensures Answered(w, told, r1)
  {
    hide AllCaused, AllTold, Clean;
    CleanCaused(w, told, r0, r1, [], 0);
    CleanTold(w, r0, r1, [], 0);
  }

  /** The stacked records take the error. */
  lemma FailAllAnswered(w: World, told: Settlements, r: Walk, recs: Recs, v: Id)
    requires Ends(w, told, r, v) && r.thrown.Some? && FailedAll(r.st.recs, recs, r.stack, r.thrown.value)
    requires RecordsOk(w.g, r.st.recs, r.stack)
    ensures Answered(w, told, recs) && Caused(w, told, recs, v, r.thrown.value)
  {
    var e := r.thrown.value;
    var y := BlamedOne(w, told, r, v);
    FailAllFacts(w.g, r.st.recs, recs, r.stack, e);
    assert forall z: Id | Ran(r.st.recs, z) :: Ran(recs, z);
    hide RecordsOk, Reach;
    assert Threw(w, told, recs, y, e);
    forall x: Id ensures CausedAt(w, told, recs, x) {
      assert CausedAt(w, told, r.st.recs, x);
      hide AllCaused, AllTold, Caused, Threw;
      if x in r.stack { CausedBy(w, told, recs, x, y, e); }
      if x < |recs| && r.st.recs[x].hasError { RanCause(w, told, r.st.recs, recs, x, r.st.recs[x].error); }
      if x < |recs| && r.st.recs[x].topLevelCapability.Rejected? {
        RanCause(w, told, r.st.recs, recs, x, r.st.recs[x].topLevelCapability.error);
      }
    }
    forall x: Id ensures ToldAt(w, recs, [], 0, x) { assert ToldAt(w, r.st.recs, r.stack, e, x); }
  }

  lemma CausedBy(w: World, told: Settlements, recs: Recs, x: Id, y: Id, e: Error)
    requires Reach(Imports(w.g), x, y) && Threw(w, told, recs, y, e)
    ensures Caused(w, told, recs, x, e)
  {
  }

  lemma BlamedOne(w: World, told: Settlements, r: Walk, v: Id) returns (y: Id)
    requires Ends(w, told, r, v) && r.thrown.Some?
    ensures Threw(w, told, r.st.recs, y, r.thrown.value) && Reach(Imports(w.g), v, y)
    ensures forall x | x in r.stack :: Reach(Imports(w.g), x, y)
  {
    hide AllCaused, AllTold, Threw, Reach;
    y :| Threw(w, told, r.st.recs, y, r.thrown.value) && Behind(w.g, v, r.stack, y);
  }

  lemma RejectAnswered(w: World, told: Settlements, st: State, t: Id, e: Error)
    requires Answered(w, told, st.recs) && t < |st.recs| && Caused(w, told, st.recs, t, e)
    ensures Answered(w, told, RejectCapability(st, t, e).recs)
  {
    var r := RejectCapability(st, t, e).recs[t];
    assert RejectCapability(st, t, e).recs == st.recs[t := r];
    assert CausedAt(w, told, st.recs, t);
    var r1 := st.recs[t := r];
    forall x: Id ensures ToldAt(w, r1, [], 0, x) { assert ToldAt(w, st.recs, [], 0, x); }
    hide AllCaused, AllTold, Caused;
    MarkedCaused(w, told, st.recs, t, r);
  }

  lemma AttemptEnds(w: World, told: Settlements, st: State, t: Id)
    requires w.g.Loaded() && Resting(w.g, st) && t < |st.recs| && st.recs[t].topLevelCapability.NoCapability?
    requires Answered(w, told, st.recs)
    ensures Ends(w, told, Attempt(w, st, t), t)
  {
    MayBegin(w.g, st, t);
    PutClean(w, st, t, st.recs[t].(topLevelCapability := Pending));
    hide Resting, MayEnter, InnerModuleEvaluation, Ends, AllCaused, AllTold, Clean;
    CleanAnswered(w, told, st.recs, Opened(st, t).recs);
    WalkEnds(w, told, Opened(st, t), [], {}, t, 0, t);
  }

  lemma ReturnAnswered(w: World, told: Settlements, st: State, m: Id)
    requires w.g.Loaded() && Resting(w.g, st) && m < |st.recs| && Walks(w, st, m) && Answered(w, told, st.recs)
    requires Attempt(w, st, Target(w, st, m)).thrown.None?
    ensures Answered(w, told, Evaluate(w, st, m).recs)
  {
    var t := Target(w, st, m);
    TargetInRange(w, st, m);
    hide Resting;
    AttemptEnds(w, told, st, t);
    var r := Attempt(w, st, t);
    EndsCaused(w, told, r, t);
    hide Attempt, Target, AllCaused, AllTold;
    var c := Get(r.st, t).topLevelCapability;
    var settled := Get(r.st, t).(topLevelCapability := if c.Pending? then Resolved else c);
    PutClean(w, r.st, t, settled);
    hide Clean, Ends;
    CleanAnswered(w, told, r.st.recs, Put(r.st, t, settled).recs);
    hide Answered;
  }

  lemma ThrowAnswered(w: World, told: Settlements, st: State, m: Id)
    requires w.g.Loaded() && Resting(w.g, st) && m < |st.recs| && Walks(w, st, m) && Answered(w, told, st.recs)
    requires Attempt(w, st, Target(w, st, m)).thrown.Some?
    ensures Answered(w, told, Evaluate(w, st, m).recs)
  {
    var t := Target(w, st, m);
    TargetInRange(w, st, m);
    AttemptOk(w, st, t);
    AttemptEnds(w, told, st, t);
    var r := Attempt(w, st, t);
    hide Attempt, Target, Resting, Ends, Answered;
    CaughtPlain(w, Opened(st, t), r, t);
    assert Evaluate(w, st, m) == Caught(w, r, t);
    assert t < |r.st.recs| && Thrown(w.g, r.st, r.stack, t) by { hide Thrown, EvolvesAt; }
    hide Caught, Thrown, Evaluate, CallThrew;
    var e := r.thrown.value;
    ThrownRange(w.g, r.st, r.stack, t);
    FailAllOk(r.st, r.stack, e);
    assert |FailAll(r.st, r.stack, e).recs| == |r.st.recs|;
    hide FailAll, FailedAll, RecordsOk, Caused, RejectCapability;
    FailAllAnswered(w, told, r, FailAll(r.st, r.stack, e).recs, t);
    RejectAnswered(w, told, FailAll(r.st, r.stack, e), t, e);
  }

  lemma EvaluateAnswered(w: World, told: Settlements, st: State, m: Id)
    requires w.g.Loaded() && Resting(w.g, st) && m < |st.recs| && Answered(w, told, st.recs)
    ensures Answered(w, told, Evaluate(w, st, m).recs)
  {
    if Walks(w, st, m) {
      if Attempt(w, st, Target(w, st, m)).thrown.None? { ReturnAnswered(w, told, st, m); } else { ThrowAnswered(w, told, st, m); }
    } else {
      EvaluateUnfolds(w, st, m);
    }
    hide Resting, Attempt, Target, Answered;
  }

  // ── A settlement ─────────────────────────────────────────────────────────

  /** What waits for a module, by however many steps, imports it. */
  lemma AncestorsImport(g: Graph, recs: Recs, m: Id, x: Id)
    requires Structure(g, recs, []) && Waiting(recs, m) && Reach(ParentEdges(recs), m, x)
    ensures Reach(Imports(g), x, m)
  {
    var above := set z | z in IdsBelow(|recs|) && Rooted(recs, z) && Reach(Imports(g), z, m);
    assert RecordOk(g, m, recs[m], false);
    ReachRefl(Imports(g), m);
    hide Reach, RootsOk, RequestsMet, ErrorsUp, CycleParents, RecordsOk;
    forall z, p | z in above && p in ParentEdges(recs)(z) ensures p in above {
      assert EdgeOk(g, recs, [], z, p);
      ReachTrans(Imports(g), p, z, m);
    }
    ClosedReach(ParentEdges(recs), above, m, x);
  }

  lemma FailAnswered(w: World, told: Settlements, st: State, m: Id, e: Error)
    requires Structure(w.g, st.recs, []) && Waiting(st.recs, m)
    requires AllCaused(w, told, st.recs) && AllTold(w, st.recs, [m], e) && Threw(w, told, st.recs, m, e)
    ensures Answered(w, told, FailModule(w, st, m, e).recs)
  {
    var r0, r1 := st.recs, FailModule(w, st, m, e).recs;
    FailFrom(w, st, m, e);
    HitWaits(w.g, r0, r1, m, e);
    forall x: Id | Hit(r0, r1, x) ensures Reach(Imports(w.g), x, m) { AncestorsImport(w.g, r0, m, x); }
    hide FailModule, Structure, Reach, FailClosed, RejectionLogged, OnlyRejections;
    hide FailStep;
    forall z: Id | Ran(r0, z) ensures Ran(r1, z) { assert RecFails(r0, r1, e, z); }
    assert Threw(w, told, r1, m, e);
    forall x: Id ensures CausedAt(w, told, r1, x) {
      assert CausedAt(w, told, r0, x);
      assert x < |r0| ==> RecFails(r0, r1, e, x);
      hide AllCaused, AllTold, Caused, Threw;
      if Hit(r0, r1, x) { CausedBy(w, told, r1, x, m, e); }
      if x < |r0| && r0[x].hasError { RanCause(w, told, r0, r1, x, r0[x].error); }
      if x < |r0| && r0[x].topLevelCapability.Rejected? { RanCause(w, told, r0, r1, x, r0[x].topLevelCapability.error); }
    }
    forall x: Id ensures ToldAt(w, r1, [], 0, x) {
      assert ToldAt(w, r0, [m], e, x);
      assert x < |r0| ==> RecFails(r0, r1, e, x);
    }
  }

  lemma BeginClean(w: World, st: State, p: Id, body: Body, s: seq<Id>, e: Error)
    requires p < |st.recs| && !body.Unstarted? && (body.Over? ==> !w.g.HasTLA(p))
    requires Faulty(w, p) ==> p in s && w.fails[p] == e
    ensures Clean(w, st.recs, Begin(st, p, body).recs, s, e)
  {
    var r1 := Begin(st, p, body).recs;
    forall y: Id | y < |st.recs| ensures CleanAt(w, st.recs, r1, s, e, y) {}
  }

  lemma CompleteClean(w: World, st: State, p: Id)
    requires p < |st.recs|
    ensures Clean(w, st.recs, Complete(st, p).recs, [], 0)
  {
    var r1 := Complete(st, p).recs;
    forall y: Id | y < |st.recs| ensures CleanAt(w, st.recs, r1, [], 0, y) {}
  }

  lemma RunReadyAnswered(w: World, told: Settlements, st: State, queue: seq<Id>)
    requires Awake(w.g, st, queue) && queue != [] && Answered(w, told, st.recs)
    ensures Answered(w, told, RunReady(w, st, queue[0]).recs)
  {
    var p := queue[0];
    FirstFacts(w.g, st, queue);
    hide Awake, FailModule, Begin, Complete, Clean, AllCaused, AllTold;
    if !st.recs[p].status.Evaluated? {
      if w.g.HasTLA(p) {
        BeginClean(w, st, p, Running, [], 0);
        CleanAnswered(w, told, st.recs, Begin(st, p, Running).recs);
      } else if p in w.fails {
        ReadyThrows(w, told, st, queue);
      } else {
        var st1 := Begin(st, p, Over);
        BeginClean(w, st, p, Over, [], 0);
        assert p < |st1.recs| by { BeginSize(st, p, Over); }
        CompleteClean(w, st1, p);
        CleanAnswered(w, told, st.recs, st1.recs);
        CleanAnswered(w, told, st1.recs, Complete(st1, p).recs);
      }
    }
    hide Answered;
  }

  lemma BeginSize(st: State, p: Id, body: Body)
    ensures |Begin(st, p, body).recs| == |st.recs|
  {
  }

  lemma ReadyThrows(w: World, told: Settlements, st: State, queue: seq<Id>)
    requires Awake(w.g, st, queue) && queue != [] && Answered(w, told, st.recs)
    requires Waiting(st.recs, queue[0]) && Faulty(w, queue[0])
    ensures Answered(w, told, FailModule(w, Begin(st, queue[0], Over), queue[0], w.fails[queue[0]]).recs)
  {
    var p, st1 := queue[0], Begin(st, queue[0], Over);
    assert Structure(w.g, st1.recs, []) by {
      hide Books, QueueCounts, StartedFree, InOrder, QueuedOk;
      assert RecordOk(w.g, p, st.recs[p], false);
      FirstFacts(w.g, st, queue);
      StartedStructure(w.g, st.recs, p, st1.recs[p]);
      hide Structure;
    }
    assert Waiting(st1.recs, p) && Threw(w, told, st1.recs, p, w.fails[p]);
    BeginClean(w, st, p, Over, [p], w.fails[p]);
    hide Awake, Structure, AllCaused, AllTold, Clean, Begin, FailModule;
    CleanCaused(w, told, st.recs, st1.recs, [p], w.fails[p]);
    CleanTold(w, st.recs, st1.recs, [p], w.fails[p]);
    FailAnswered(w, told, st1, p, w.fails[p]);
  }

  lemma {:induction false} RunAllAnswered(w: World, told: Settlements, st: State, queue: seq<Id>)
    requires Awake(w.g, st, queue) && Answered(w, told, st.recs)
    ensures Answered(w, told, RunAllReady(w, st, queue).recs)
    decreases |queue|
  {
    hide Awake, Answered, RunReady;
    if queue != [] {
      RunReadyOk(w, st, queue);
      RunReadyAnswered(w, told, st, queue);
      RunAllAnswered(w, told, RunReady(w, st, queue[0]), queue[1..]);
    }
  }

  lemma ShapeClean(w: World, r0: Recs, r1: Recs)
    requires SameButPending(r0, r1)
    ensures Clean(w, r0, r1, [], 0)
  {
    forall y: Id | y < |r0| ensures CleanAt(w, r0, r1, [], 0, y) { assert SameShape(r0[y], r1[y]); }
  }

  /** The host settles the promise of the body of `m`. */
  lemma OverAnswered(w: World, told: Settlements, st: State, m: Id)
    requires m < |st.recs| && st.recs[m].body.Running? && Answered(w, told, st.recs) && m in told.settled
    ensures Answered(w, told, Put(st, m, Get(st, m).(body := Over)).recs)
  {
    var r := st.recs[m].(body := Over);
    assert CausedAt(w, told, st.recs, m);
    var r1 := st.recs[m := r];
    forall x: Id ensures ToldAt(w, r1, [], 0, x) { assert ToldAt(w, st.recs, [], 0, x); }
    hide AllCaused, AllTold, Caused;
    MarkedCaused(w, told, st.recs, m, r);
  }

  lemma SettleOkAnswered(w: World, told: Settlements, st: State, m: Id)
    requires Quiescent(w.g, st.recs) && Books(w.g, st) && m < |st.recs| && st.recs[m].body.Running?
    requires Answered(w, told, st.recs) && m in told.settled
    ensures Answered(w, told, SettleOk(w, st, m).st.recs)
  {
    assert RecordsOk(w.g, st.recs, []) by { hide Books, Answered; }
    RunningIsUnsettled(w.g, st.recs, m);
    var st1 := Put(st, m, Get(st, m).(body := Over));
    OverAnswered(w, told, st, m);
    if Waiting(st.recs, m) {
      SettleOkWakes(w, st, m);
      var st2 := Complete(st1, m);
      CompleteClean(w, st1, m);
      CleanAnswered(w, told, st1.recs, st2.recs);
      hide Quiescent, Books, Gather, Complete, SortByOrder, RunAllReady, SettleOk, RecordsOk, Awake, Answered, Clean;
      var gathered := Gather(w, st2, Parents(st.recs, m), []);
      ShapeClean(w, st2.recs, gathered.st.recs);
      CleanAnswered(w, told, st2.recs, gathered.st.recs);
      RunAllAnswered(w, told, gathered.st, SortByOrder(gathered.st, gathered.list));
    } else {
      hide Answered, Clean;
    }
  }

  lemma SettleErrorAnswered(w: World, told: Settlements, st: State, m: Id, e: Error)
    requires Quiescent(w.g, st.recs) && Books(w.g, st) && m < |st.recs| && st.recs[m].body.Running?
    requires Answered(w, told, st.recs) && m in told.settled && (m, e) in told.rejected
    ensures Answered(w, told, SettleError(w, st, m, e).recs)
  {
    assert RecordsOk(w.g, st.recs, []) by { hide Books, Answered; }
    RunningIsUnsettled(w.g, st.recs, m);
    var st1 := Put(st, m, Get(st, m).(body := Over));
    OverAnswered(w, told, st, m);
    if Waiting(st.recs, m) {
      BodyOver(w.g, st, m);
      assert Threw(w, told, st1.recs, m, e);
      hide Quiescent, Books, BooksBut, RecordsOk, FailModule, Structure, AllCaused, AllTold, Clean;
      ToldMore(w, st1.recs, [m], e);
      FailAnswered(w, told, st1, m, e);
    } else {
      hide Answered, Clean, Quiescent, Books, RecordsOk;
    }
  }

  // ── Runs ─────────────────────────────────────────────────────────────────

  lemma NextAnswered(w: World, told: Settlements, st: State, step: Step)
    requires w.g.Loaded() && Ready(w.g, st) && May(w, st, step) && Answered(w, told, st.recs)
    requires step.Fulfils? || step.Rejects? ==> step.m in told.settled
    requires step.Rejects? ==> (step.m, step.error) in told.rejected
    ensures Answered(w, told, Next(w, st, step).recs)
  {
    match step
    case Links(after) =>
      hide Ready, AllCaused, AllTold;
      PreparedClean(w, st, after);
      hide Clean;
      CleanAnswered(w, told, st.recs, after.recs);
    case Calls(m) =>
      hide Resting, Answered, Evaluate, Strands;
      EvaluateAnswered(w, told, st, m);
    case Fulfils(m) =>
      hide Quiescent, Books, AsyncReachesTLA, Answered, SettleOk;
      SettleOkAnswered(w, told, st, m);
    case Rejects(m, e) =>
      hide Quiescent, Books, AsyncReachesTLA, Answered, SettleError;
      SettleErrorAnswered(w, told, st, m, e);
  }

  lemma PreparedClean(w: World, st: State, st1: State)
    requires M.Prepares(w.g, st, st1)
    ensures Clean(w, st.recs, st1.recs, [], 0)
  {
    hide NewEnvironments;
    forall y: Id | y < |st.recs| ensures CleanAt(w, st.recs, st1.recs, [], 0, y) {
      assert M.PreparedAt(w.g, st.recs[y], st1.recs[y], y);
    }
  }

  lemma {:induction false} RunAnswered(w: World, told: Settlements, st: State, steps: seq<Step>)
    requires w.g.Loaded() && Ready(w.g, st) && Run(w, st, steps) && Answered(w, told, st.recs)
    requires forall k | 0 <= k < |steps| && (steps[k].Fulfils? || steps[k].Rejects?) :: steps[k].m in told.settled
    requires forall k | 0 <= k < |steps| && steps[k].Rejects? :: (steps[k].m, steps[k].error) in told.rejected
    ensures Answered(w, told, After(w, st, steps).recs)
    decreases |steps|
  {
    hide Ready, May, Next, Answered;
    if steps != [] {
      NextReady(w, st, steps[0]);
      NextAnswered(w, told, st, steps[0]);
      RunAnswered(w, told, Next(w, st, steps[0]), steps[1..]);
    }
  }

  /** What the steps of a run have settled, and with what errors. */
  function HostTold(steps: seq<Step>): Settlements {
    Settlements(set k | 0 <= k < |steps| && (steps[k].Fulfils? || steps[k].Rejects?) :: steps[k].m,
                set k | 0 <= k < |steps| && steps[k].Rejects? :: (steps[k].m, steps[k].error))
  }

  lemma ReachedAnswered(w: World, steps: seq<Step>)
    requires w.g.Loaded() && Run(w, Initial(w.g), steps)
    ensures Answered(w, HostTold(steps), After(w, Initial(w.g), steps).recs)
  {
    var st := Initial(w.g);
    InitialReady(w.g);
    assert forall x: Id | x < |st.recs| :: st.recs[x] == Fresh();
    assert AllCaused(w, HostTold(steps), st.recs) && AllTold(w, st.recs, [], 0) by { hide Caused; }
    hide Ready, Run, After, AllCaused, AllTold;
    RunAnswered(w, HostTold(steps), st, steps);
  }

  /** Some module that `x` reaches threw `e`: its body was entered and throws it, or the
      promise of its body was rejected with it. */
  ghost predicate Culprit(w: World, steps: seq<Step>, log: seq<Event>, x: Id, e: Error) {
    exists y: Id :: Reach(Imports(w.g), x, y) &&
      (Rejects(y, e) in steps || (Faulty(w, y) && w.fails[y] == e && Began(y) in log))
  }

  lemma RanIsLogged(g: Graph, st: State, y: Id)
    requires Resting(g, st) && y < |st.recs|
    ensures Ran(st.recs, y) <==> Began(y) in st.log
  {
    hide Quiescent, AsyncReachesTLA, StartsInOrder;
    assert LoggedAt(g, st, None, y);
    if Ran(st.recs, y) { CountedIsLogged(st.log, Began(y)); }
    if Began(y) in st.log { LoggedCounts(st.log, Began(y)); }
  }

  lemma {:induction false} LoggedCounts(log: seq<Event>, e: Event)
    requires e in log
    ensures EventCount(log, e) > 0
  {
    if log[|log|-1] != e {
      assert e in log[..|log|-1];
      LoggedCounts(log[..|log|-1], e);
    }
  }

  lemma CausedIsCulprit(w: World, steps: seq<Step>, st: State, x: Id, e: Error)
    requires Resting(w.g, st) && Caused(w, HostTold(steps), st.recs, x, e)
    ensures Culprit(w, steps, st.log, x, e)
  {
    hide Resting, Reach;
    var y: Id :| Reach(Imports(w.g), x, y) && Threw(w, HostTold(steps), st.recs, y, e);
    if (y, e) in HostTold(steps).rejected {
      var k :| 0 <= k < |steps| && steps[k].Rejects? && (steps[k].m, steps[k].error) == (y, e);
      assert steps[k] == Rejects(y, e);
    } else {
      RanIsLogged(w.g, st, y);
    }
  }

  /** In every run, the error of a record, and the error a promise was rejected with, is one
      that some module it reaches threw. */
  lemma ErrorsHaveCauses(w: World, steps: seq<Step>, x: Id)
    requires w.g.Loaded() && Run(w, Initial(w.g), steps) && x < |After(w, Initial(w.g), steps).recs|
    ensures var st := After(w, Initial(w.g), steps); var r := st.recs[x];
      && (r.hasError ==> Culprit(w, steps, st.log, x, r.error))
      && (r.topLevelCapability.Rejected? ==> Culprit(w, steps, st.log, x, r.topLevelCapability.error))
  {
    var st := After(w, Initial(w.g), steps);
    Reached(w, steps);
    ReachedAnswered(w, steps);
    assert CausedAt(w, HostTold(steps), st.recs, x) by { hide CausedAt, Ready, Resting, AllTold, Run, After; }
    hide Ready, Resting, Run, After, AllTold, AllCaused, Caused, Culprit, HostTold;
    if st.recs[x].hasError { CausedIsCulprit(w, steps, st, x, st.recs[x].error); }
    if st.recs[x].topLevelCapability.Rejected? { CausedIsCulprit(w, steps, st, x, st.recs[x].topLevelCapability.error); }
  }

  /** And what a body throws at once is its module's error from then on. */
  lemma ThrownIsRecorded(w: World, steps: seq<Step>, y: Id)
    requires w.g.Loaded() && Run(w, Initial(w.g), steps) && y < |After(w, Initial(w.g), steps).recs|
    requires y in w.fails && !w.g.HasTLA(y) && Began(y) in After(w, Initial(w.g), steps).log
    ensures After(w, Initial(w.g), steps).recs[y].hasError && After(w, Initial(w.g), steps).recs[y].error == w.fails[y]
  {
    var st := After(w, Initial(w.g), steps);
    Reached(w, steps);
    ReachedAnswered(w, steps);
    hide Ready, Resting, Run, After, AllCaused;
    RanIsLogged(w.g, st, y);
    assert ToldAt(w, st.recs, [], 0, y);
  }

  /** A body with top-level await ends only when the host settles its promise. */
  lemma AwaitedBodiesAreSettled(w: World, steps: seq<Step>, x: Id)
    requires w.g.Loaded() && Run(w, Initial(w.g), steps) && x < |After(w, Initial(w.g), steps).recs| && w.g.HasTLA(x)
    requires After(w, Initial(w.g), steps).recs[x].body.Over?
    ensures exists k :: 0 <= k < |steps| && (steps[k] == Fulfils(x) || (steps[k].Rejects? && steps[k].m == x))
  {
    var st := After(w, Initial(w.g), steps);
    ReachedAnswered(w, steps);
    hide Run, After, AllTold;
    assert CausedAt(w, HostTold(steps), st.recs, x);
  }

  // ── One call ─────────────────────────────────────────────────────────────

  /** The errors that records have, and the bodies that are over, as if the host had told them. */
  function Errors(recs: Recs): Settlements {
    Settlements(set x: nat | x < |recs| && recs[x].body.Over? :: x, set x: nat | x < |recs| && recs[x].hasError :: (x, recs[x].error))
  }

  lemma ErrorsAnswered(w: World, told: Settlements, st: State)
    requires Resting(w.g, st) && Answered(w, told, st.recs)
    ensures Answered(w, Errors(st.recs), st.recs)
  {
    hide Quiescent, AsyncReachesTLA, StartsInOrder, Reach, AllTold;
    forall x: Id ensures CausedAt(w, Errors(st.recs), st.recs, x) {
      assert LoggedAt(w.g, st, None, x);
      ReachRefl(Imports(w.g), x);
      if Errored(st.recs, x) { assert (x, st.recs[x].error) in Errors(st.recs).rejected; }
    }
  }

  /** In every run, a call of `evaluate(m)` that throws `e` has met a module with that error
      below `m`, or has entered the body of one that throws it; no `TypeError` of a missing
      cycle root comes up. */
  lemma CallThrowsCause(w: World, steps: seq<Step>, m: Id)
    requires w.g.Loaded() && Run(w, Initial(w.g), steps) && m < |After(w, Initial(w.g), steps).recs|
    requires var st := After(w, Initial(w.g), steps); Walks(w, st, m) && Attempt(w, st, Target(w, st, m)).thrown.Some?
    ensures var st := After(w, Initial(w.g), steps); var t := Target(w, st, m); var r := Attempt(w, st, t);
      exists y: Id :: Reach(Imports(w.g), t, y) &&
        ((Errored(st.recs, y) && st.recs[y].error == r.thrown.value)
         || (Faulty(w, y) && w.fails[y] == r.thrown.value && !Ran(st.recs, y) && Ran(r.st.recs, y)))
  {
    var st := After(w, Initial(w.g), steps);
    var t := Target(w, st, m);
    Reached(w, steps);
    ReachedAnswered(w, steps);
    hide Run, After, Ready;
    ErrorsAnswered(w, HostTold(steps), st);
    TargetInRange(w, st, m);
    hide Resting, Attempt, Target;
    AttemptEnds(w, Errors(st.recs), st, t);
    var r := Attempt(w, st, t);
    var y := BlamedOne(w, Errors(st.recs), r, t);
    assert ToldAt(w, st.recs, [], 0, y) by { hide AllCaused, ToldAt; }
    hide Ends, AllCaused, AllTold, Reach;
    if (y, r.thrown.value) in Errors(st.recs).rejected { assert Errored(st.recs, y); }
  }
}
