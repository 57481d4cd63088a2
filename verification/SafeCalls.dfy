/** A condition on the graph and the records, to be looked at before a call of evaluate, under
    which the call cannot throw past a module that already waits. */
module SafeCalls {
  import opened ModuleGraph
  import opened Reachability
  import opened Records
  import opened Evaluation
  import opened AsyncState
  import opened Descend
  import opened EvaluateCall
  import opened HostEntry
  import opened Ascend
  import Scc

  // ── What may throw, and what may be waited for ───────────────────────────

  /** The body of `y` would throw at once. */
  ghost predicate WouldFail(w: World, recs: Recs, y: Id) {
    y < |recs| && recs[y].body.Unstarted? && y in w.fails && !w.g.HasTLA(y)
  }

  /** A call for `v` may throw: something below `v` has failed, or would fail. */
  ghost predicate MayThrow(w: World, recs: Recs, v: Id) {
    exists y: Id :: Reach(Imports(w.g), v, y) && (Errored(recs, y) || WouldFail(w, recs, y))
  }

  /** Nothing that `p` requests may throw after a request below which there is top-level
      await, and `p` itself does not fail if there is any below it. */
  ghost predicate SafeAt(w: World, recs: Recs, p: Id) {
    && (forall i, j | 0 <= i < j < |w.g.Requested(p)| && ReachesTLA(w.g, w.g.Requested(p)[i]) :: !MayThrow(w, recs, w.g.Requested(p)[j]))
    && (WouldFail(w, recs, p) ==> !ReachesTLA(w.g, p))
  }

  ghost predicate Safe(w: World, recs: Recs, v: Id) {
    forall p: Id {:trigger SafeAt(w, recs, p)} | Reach(Imports(w.g), v, p) :: SafeAt(w, recs, p)
  }

  lemma SafeBelow(w: World, recs: Recs, v: Id, x: Id)
    requires Safe(w, recs, v) && Reach(Imports(w.g), v, x)
    ensures Safe(w, recs, x) && SafeAt(w, recs, v) && SafeAt(w, recs, x)
  {
    hide Reach, SafeAt;
    ReachRefl(Imports(w.g), v);
    forall p: Id | Reach(Imports(w.g), x, p) ensures SafeAt(w, recs, p) { ReachTrans(Imports(w.g), v, x, p); }
  }

  lemma ThrowBelow(w: World, recs: Recs, v: Id, x: Id)
    requires Reach(Imports(w.g), v, x) && MayThrow(w, recs, x)
    ensures MayThrow(w, recs, v)
  {
    var y: Id :| Reach(Imports(w.g), x, y) && (Errored(recs, y) || WouldFail(w, recs, y));
    hide Reach;
    ReachTrans(Imports(w.g), v, x, y);
  }

  lemma AwaitBelow(g: Graph, v: Id, x: Id)
    requires Reach(Imports(g), v, x) && ReachesTLA(g, x)
    ensures ReachesTLA(g, v)
  {
    var y: Id :| Reach(Imports(g), x, y) && g.HasTLA(y);
    hide Reach;
    ReachTrans(Imports(g), v, x, y);
  }

  // ── A walk that does not throw brings no errors ──────────────────────────

  /** `recs` has no more errors, and no more bodies to be entered, than `base`. */
  ghost predicate Fewer(base: Recs, recs: Recs) {
    |base| == |recs| && forall x: Id | x < |recs| :: (recs[x].hasError ==> base[x].hasError) && (recs[x].body.Unstarted? ==> base[x].body.Unstarted?)
  }

  lemma FewerTrans(base: Recs, r0: Recs, r1: Recs)
    requires Fewer(base, r0) && Fewer(r0, r1)
    ensures Fewer(base, r1)
  {
  }

  lemma {:induction false} PopFewer(st: State, s: seq<Id>, m: Id)
    ensures Fewer(st.recs, PopTo(st, s, m).0.recs)
    decreases |s|
  {
    if s != [] { PopFewer(Put(st, s[|s|-1], Popped(Get(st, s[|s|-1]), m)), s[..|s|-1], m); }
  }

  lemma RunFewer(w: World, st: State, m: Id)
    requires m < |st.recs|
    ensures Fewer(st.recs, RunBody(w, st, m).0.recs)
  {
  }

  lemma FinishFewer(w: World, st: State, s: seq<Id>, m: Id, index: int)
    requires m < |st.recs|
    ensures Fewer(st.recs, FinishCall(w, st, s, m, index).st.recs)
  {
    RunFewer(w, st, m);
    var st1 := RunBody(w, st, m).0;
    PopFewer(st1, s, m);
    hide Fewer, RunBody, PopTo;
    FewerTrans(st.recs, st1.recs, PopTo(st1, s, m).0.recs);
  }

  lemma PutFewer(st: State, x: Id, r: Rec)
    requires r.hasError == Get(st, x).hasError && r.body == Get(st, x).body
    ensures Fewer(st.recs, Put(st, x, r).recs)
  {
  }

  lemma RegisterFewer(st: State, m: Id, v: Id)
    ensures Fewer(st.recs, Register(st, m, v).recs)
  {
    var st1 := Put(st, m, Get(st, m).(pendingAsyncDependencies := Get(st, m).pendingAsyncDependencies + 1));
    PutFewer(st, m, Get(st1, m));
    PutFewer(st1, v, Get(st1, v).(asyncParentModules := Get(st1, v).asyncParentModules + [m]));
    PutFewer(st, m, Get(st, m));
    hide Fewer;
    if Get(st, v).asyncEvaluation { FewerTrans(st.recs, st1.recs, Register(st, m, v).recs); }
  }

  lemma LookFewer(w: World, st: State, m: Id, v: Id)
    ensures Fewer(st.recs, AfterRequest(w, st, m, v).0.recs)
  {
    var st1 := Put(st, m, Get(st, m).(dfsAncestorIndex := Min(Get(st, m).dfsAncestorIndex, Get(st, v).dfsAncestorIndex)));
    PutFewer(st, m, Get(st1, m));
    PutFewer(st, m, Get(st, m));
    hide Fewer, Register;
    RegisterFewer(st1, m, v);
    FewerTrans(st.recs, st1.recs, Register(st1, m, v).recs);
    if Get(st, v).cycleRoot.Some? { RegisterFewer(st, m, Get(st, v).cycleRoot.value); }
  }

  lemma {:induction false} WalkFewer(w: World, st: State, s: seq<Id>, v: Id, index: int)
    requires InnerModuleEvaluation(w, st, s, v, index).thrown.None?
    ensures Fewer(st.recs, InnerModuleEvaluation(w, st, s, v, index).st.recs)
    decreases Unvisited(st), 0, 1
  {
    if w.g.Cyclic(v) && v < |st.recs| && !Visited(st.recs[v].status) {
      var st1 := Put(st, v, Entered(st.recs[v], index));
      FreshUnfolds(w, st, s, v, index);
      var looped := EvaluateRequests(w, st1, s + [v], v, 0, index + 1);
      assert Fewer(st.recs, st1.recs);
      hide InnerModuleEvaluation, EvaluateRequests, FinishCall, Fewer, Unvisited;
      LoopFewer(w, st1, s + [v], v, 0, index + 1);
      assert |looped.st.recs| == |st1.recs| by { FewerSize(st1.recs, looped.st.recs); }
      FinishFewer(w, looped.st, looped.stack, v, looped.index);
      FewerTrans(st.recs, st1.recs, looped.st.recs);
      FewerTrans(st.recs, looped.st.recs, FinishCall(w, looped.st, looped.stack, v, looped.index).st.recs);
    } else {
      hide EvaluateRequests, FinishCall;
    }
  }

  lemma FewerSize(base: Recs, recs: Recs)
    requires Fewer(base, recs)
    ensures |base| == |recs|
  {
  }

  lemma {:induction false} LoopFewer(w: World, st: State, s: seq<Id>, m: Id, i: nat, index: int)
    requires EvaluateRequests(w, st, s, m, i, index).thrown.None?
    ensures Fewer(st.recs, EvaluateRequests(w, st, s, m, i, index).st.recs)
    decreases Unvisited(st), 1, |w.g.Requested(m)| - i
  {
    if i < |w.g.Requested(m)| {
      var v := w.g.Requested(m)[i];
      LoopUnfolds(w, st, s, m, i, index);
      var child := InnerModuleEvaluation(w, st, s, v, index);
      var (st1, thrown) := AfterRequest(w, child.st, m, v);
      hide InnerModuleEvaluation, EvaluateRequests, AfterRequest, Fewer, Unvisited;
      WalkFewer(w, st, s, v, index);
      LookFewer(w, child.st, m, v);
      LoopFewer(w, st1, child.stack, m, i + 1, child.index);
      FewerTrans(st.recs, child.st.recs, st1.recs);
      FewerTrans(st.recs, st1.recs, EvaluateRequests(w, st1, child.stack, m, i + 1, child.index).st.recs);
    }
  }

  // ── Only what a walk enters registers as a parent ────────────────────────

  ghost predicate NewParents(g: Graph, st: State, st1: State, v: Id) {
    && |st.recs| == |st1.recs|
    && (forall x: Id | x < |st.recs| && Visited(st.recs[x].status) :: Visited(st1.recs[x].status))
    && forall x: Id, p: Id {:trigger p in Parents(st1.recs, x)} | p in Parents(st1.recs, x) && p !in Parents(st.recs, x) ::
         Reach(Imports(g), v, p) && p < |st.recs| && !Visited(st.recs[p].status)
  }

  lemma NewTrans(g: Graph, st: State, st1: State, st2: State, v: Id, u: Id)
    requires NewParents(g, st, st1, v) && NewParents(g, st1, st2, u) && Reach(Imports(g), v, u)
    ensures NewParents(g, st, st2, v)
  {
    hide Reach;
    forall x: Id, p: Id | p in Parents(st2.recs, x) && p !in Parents(st.recs, x)
      ensures Reach(Imports(g), v, p) && p < |st.recs| && !Visited(st.recs[p].status)
    {
      if p !in Parents(st1.recs, x) { ReachTrans(Imports(g), v, u, p); }
    }
  }

  /** Parents and visits stay as they are. */
  ghost predicate SameParents(st: State, st1: State) {
    && |st.recs| == |st1.recs|
    && (forall x: Id | x < |st.recs| && Visited(st.recs[x].status) :: Visited(st1.recs[x].status))
    && forall x: Id | x < |st.recs| :: st1.recs[x].asyncParentModules == st.recs[x].asyncParentModules
  }

  lemma SameNew(g: Graph, st: State, st1: State, v: Id)
    requires SameParents(st, st1)
    ensures NewParents(g, st, st1, v)
  {
    hide Reach;
  }

  lemma {:induction false} PopParents(st: State, s: seq<Id>, m: Id)
    ensures SameParents(st, PopTo(st, s, m).0)
    decreases |s|
  {
    if s != [] { PopParents(Put(st, s[|s|-1], Popped(Get(st, s[|s|-1]), m)), s[..|s|-1], m); }
  }

  lemma FinishParents(w: World, st: State, s: seq<Id>, m: Id, index: int)
    ensures SameParents(st, FinishCall(w, st, s, m, index).st)
  {
    var st1 := RunBody(w, st, m).0;
    assert SameParents(st, st1);
    PopParents(st1, s, m);
    hide RunBody, PopTo;
  }

  /** `m`, which was entered in the state `st`, may register with what it requests. */
  lemma LookParents(w: World, st: State, st0: State, m: Id, v: Id)
    requires m < |st.recs| && !Visited(st.recs[m].status) && NewParents(w.g, st, st0, m) && Visited(st0.recs[m].status)
    ensures NewParents(w.g, st, AfterRequest(w, st0, m, v).0, m) && Visited(AfterRequest(w, st0, m, v).0.recs[m].status)
  {
    ReachRefl(Imports(w.g), m);
    hide Reach;
    var st1 := AfterRequest(w, st0, m, v).0;
    LookAdds(w, st0, m, v);
    hide AfterRequest;
    forall x: Id, p: Id | p in Parents(st1.recs, x) && p !in Parents(st.recs, x)
      ensures Reach(Imports(w.g), m, p) && p < |st.recs| && !Visited(st.recs[p].status)
    {
      if p in Parents(st0.recs, x) {} else { assert p == m; }
    }
  }

  ghost predicate AddsOnly(st: State, st1: State, m: Id) {
    && |st1.recs| == |st.recs|
    && (forall x: Id | x < |st.recs| :: Visited(st.recs[x].status) == Visited(st1.recs[x].status))
    && forall x: Id, p: Id {:trigger p in Parents(st1.recs, x)} | p in Parents(st1.recs, x) :: p in Parents(st.recs, x) || p == m
  }

  lemma RegisterAdds(st: State, m: Id, v: Id)
    ensures AddsOnly(st, Register(st, m, v), m)
  {
  }

  lemma LookAdds(w: World, st: State, m: Id, v: Id)
    ensures AddsOnly(st, AfterRequest(w, st, m, v).0, m)
  {
    var st1 := Put(st, m, Get(st, m).(dfsAncestorIndex := Min(Get(st, m).dfsAncestorIndex, Get(st, v).dfsAncestorIndex)));
    assert AddsOnly(st, st1, m) && AddsOnly(st, st, m);
    hide Register;
    RegisterAdds(st1, m, v);
    AddsTrans(st, st1, Register(st1, m, v), m);
    hide AddsOnly;
    if Get(st, v).cycleRoot.Some? { RegisterAdds(st, m, Get(st, v).cycleRoot.value); }
  }

  lemma AddsTrans(st: State, st1: State, st2: State, m: Id)
    requires AddsOnly(st, st1, m) && AddsOnly(st1, st2, m)
    ensures AddsOnly(st, st2, m)
  {
  }

  /** A call for a module that is not entered. */
  lemma OldParents(w: World, st: State, s: seq<Id>, v: Id, index: int)
    requires !(w.g.Cyclic(v) && v < |st.recs| && !Visited(st.recs[v].status))
    ensures SameParents(st, InnerModuleEvaluation(w, st, s, v, index).st)
    ensures w.g.Cyclic(v) && v < |st.recs| ==>
        InnerModuleEvaluation(w, st, s, v, index).st == st && InnerModuleEvaluation(w, st, s, v, index).stack == s
  {
    hide EvaluateRequests, FinishCall;
  }

  lemma {:induction false} WalkParents(w: World, st: State, s: seq<Id>, v: Id, index: int)
    ensures NewParents(w.g, st, InnerModuleEvaluation(w, st, s, v, index).st, v)
    decreases Unvisited(st), 0, 1
  {
    if w.g.Cyclic(v) && v < |st.recs| && !Visited(st.recs[v].status) {
      var st1 := Put(st, v, Entered(st.recs[v], index));
      FreshUnfolds(w, st, s, v, index);
      var looped := EvaluateRequests(w, st1, s + [v], v, 0, index + 1);
      assert SameParents(st, st1) && Visited(st1.recs[v].status);
      SameNew(w.g, st, st1, v);
      ReachRefl(Imports(w.g), v);
      hide InnerModuleEvaluation, EvaluateRequests, FinishCall, NewParents, SameParents, Unvisited, Reach;
      LoopParents(w, st, st1, s + [v], v, 0, index + 1);
      if looped.thrown.None? {
        var r := FinishCall(w, looped.st, looped.stack, v, looped.index);
        FinishParents(w, looped.st, looped.stack, v, looped.index);
        SameNew(w.g, looped.st, r.st, v);
        NewTrans(w.g, st, looped.st, r.st, v, v);
      }
    } else {
      hide InnerModuleEvaluation, NewParents, SameParents, Reach;
      OldParents(w, st, s, v, index);
      SameNew(w.g, st, InnerModuleEvaluation(w, st, s, v, index).st, v);
    }
  }

  /** The loop of `m`, which was entered in the state `st0`. */
  lemma {:induction false} LoopParents(w: World, st0: State, st: State, s: seq<Id>, m: Id, i: nat, index: int)
    requires m < |st0.recs| && !Visited(st0.recs[m].status) && NewParents(w.g, st0, st, m)
    requires m < |st.recs| && Visited(st.recs[m].status)
    ensures NewParents(w.g, st0, EvaluateRequests(w, st, s, m, i, index).st, m)
    decreases Unvisited(st), 1, |w.g.Requested(m)| - i
  {
    if i < |w.g.Requested(m)| {
      var v := w.g.Requested(m)[i];
      LoopUnfolds(w, st, s, m, i, index);
      var child := InnerModuleEvaluation(w, st, s, v, index);
      var (st1, thrown) := AfterRequest(w, child.st, m, v);
      assert v in Imports(w.g)(m);
      ReachEdge(Imports(w.g), m, v);
      hide InnerModuleEvaluation, EvaluateRequests, AfterRequest, NewParents, Unvisited, Reach;
      WalkParents(w, st, s, v, index);
      NewTrans(w.g, st0, st, child.st, m, v);
      StillVisited(w.g, st, child.st, v, m);
      LookParents(w, st0, child.st, m, v);
      if child.thrown.None? && thrown.None? {
        NewSize(w.g, st0, st1, m);
        LoopParents(w, st0, st1, child.stack, m, i + 1, child.index);
      }
    }
  }

  lemma NewSize(g: Graph, st: State, st1: State, v: Id)
    requires NewParents(g, st, st1, v)
    ensures |st.recs| == |st1.recs|
  {
    hide Reach;
  }

  lemma StillVisited(g: Graph, st: State, st1: State, v: Id, m: Id)
    requires NewParents(g, st, st1, v) && m < |st.recs| && Visited(st.recs[m].status)
    ensures m < |st1.recs| && Visited(st1.recs[m].status)
  {
    hide Reach;
  }

  // ── Where nothing may throw, nothing throws ──────────────────────────────

  lemma Carried(w: World, r0: Recs, r1: Recs, v: Id)
    requires Fewer(r0, r1)
    ensures MayThrow(w, r1, v) ==> MayThrow(w, r0, v)
  {
    hide Reach;
    if MayThrow(w, r1, v) {
      var y: Id :| Reach(Imports(w.g), v, y) && (Errored(r1, y) || WouldFail(w, r1, y));
      assert Errored(r0, y) || WouldFail(w, r0, y);
    }
  }

  lemma CarriedSafe(w: World, r0: Recs, r1: Recs, v: Id)
    requires Fewer(r0, r1) && Safe(w, r0, v)
    ensures Safe(w, r1, v)
  {
    forall p: Id | Reach(Imports(w.g), v, p) ensures SafeAt(w, r1, p) {
      assert SafeAt(w, r0, p);
      hide Reach, ReachesTLA;
      assert WouldFail(w, r1, p) ==> WouldFail(w, r0, p);
      hide MayThrow, Fewer, WouldFail;
      forall i, j | 0 <= i < j < |w.g.Requested(p)| && ReachesTLA(w.g, w.g.Requested(p)[i])
        ensures !MayThrow(w, r1, w.g.Requested(p)[j])
      {
        Carried(w, r0, r1, w.g.Requested(p)[j]);
      }
    }
  }

  /** A module that has failed, or whose body would fail, may throw. */
  lemma MayThrowSelf(w: World, recs: Recs, v: Id)
    requires Errored(recs, v) || WouldFail(w, recs, v)
    ensures MayThrow(w, recs, v)
  {
    ReachRefl(Imports(w.g), v);
    hide Reach;
  }

  /** After a request below which nothing may throw has returned, looking at it does not throw. */
  lemma LookQuiet(w: World, st: State, s: seq<Id>, st1: State, s1: seq<Id>, gray: set<Id>, m: Id, v: Id, index: int,
                  t: Id)
    requires CallDone(w.g, st, s, st1, s1, gray, v, index, t) && !MayThrow(w, st1.recs, v)
    ensures AfterRequest(w, st1, m, v).1.None?
  {
    ChildPlace(w.g, st, s, st1, s1, gray, v, index, t);
    hide CallDone, Reach;
    if w.g.Cyclic(v) && v !in s1 { assert !Errored(st1.recs, Root(st1.recs, v)); }
    hide MayThrow;
  }

  lemma SyntheticQuiet(w: World, st: State, s: seq<Id>, gray: set<Id>, v: Id, index: int, t: Id)
    requires MayEnter(w.g, st, s, gray, v, index, t) && !w.g.Cyclic(v) && !MayThrow(w, st.recs, v)
    ensures EvaluateSynthetic(w, st, v).1.None?
  {
    if !st.recs[v].body.Over? { SyntheticUnstarted(w.g, st, s, gray, v, t); }
    hide MayEnter, MayThrow;
    if EvaluateSynthetic(w, st, v).1.Some? { MayThrowSelf(w, st.recs, v); }
  }

  /** The body of a module in its loop throws only if it would fail. */
  lemma RunThrows(w: World, st0: State, s0: seq<Id>, st: State, s: seq<Id>, gray: set<Id>, m: Id, i: nat, index: int,
                  t: Id)
    requires CallLooping(w.g, st0, s0, st, s, gray, m, i, index, t)
    ensures RunBody(w, st, m).1.Some? ==> WouldFail(w, st.recs, m)
  {
    LoopFacts(w.g, st0, s0, st, s, gray, m, i, index, t);
    hide CallLooping;
  }

  lemma {:induction false} WalkQuiet(w: World, st: State, s: seq<Id>, gray: set<Id>, v: Id, index: int, t: Id)
    requires w.g.Loaded() && MayEnter(w.g, st, s, gray, v, index, t) && !MayThrow(w, st.recs, v)
    ensures InnerModuleEvaluation(w, st, s, v, index).thrown.None?
    decreases Unvisited(st), 0, 1
  {
    assert v < |st.recs| by { hide Evaluates, Scc.Searching; }
    if !w.g.Cyclic(v) {
      SyntheticQuiet(w, st, s, gray, v, index, t);
      hide MayEnter, MayThrow, EvaluateSynthetic, EvaluateRequests, FinishCall;
    } else if Visited(st.recs[v].status) {
      hide MayEnter, MayThrow, EvaluateRequests, FinishCall, EvaluateSynthetic;
      if st.recs[v].hasError { MayThrowSelf(w, st.recs, v); }
    } else {
      var st1 := Put(st, v, Entered(st.recs[v], index));
      var looped := EvaluateRequests(w, st1, s + [v], v, 0, index + 1);
      PutFewer(st, v, Entered(st.recs[v], index));
      hide *;
      EnterCall(w.g, st, s, gray, v, index, t);
      FreshUnfolds(w, st, s, v, index);
      Carried(w, st.recs, st1.recs, v);
      LoopQuiet(w, st, s, st1, s + [v], gray, v, 0, index + 1, t);
      assert looped.thrown.None? by { QuietNone(w, st, s, looped, gray, v, t); }
      FinishQuiet(w, st, s, looped, gray, v, t);
    }
  }

  lemma QuietNone(w: World, st0: State, s0: seq<Id>, r: Walk, gray: set<Id>, m: Id, t: Id)
    requires QuietEnd(w, st0, s0, r, gray, m, t)
    ensures r.thrown.None?
  {
    hide CallLooping, MayThrow;
  }

  /** The end of a call throws when the body does, and is then what the body left. */
  lemma FinishThrows(w: World, st: State, s: seq<Id>, m: Id, index: int)
    ensures var r, (st1, thrown) := FinishCall(w, st, s, m, index), RunBody(w, st, m);
      if thrown.Some? then r == Walk(st1, s, index, thrown) else r.thrown.None?
  {
    hide RunBody, PopTo;
  }

  lemma FinishQuiet(w: World, st0: State, s0: seq<Id>, r: Walk, gray: set<Id>, m: Id, t: Id)
    requires QuietEnd(w, st0, s0, r, gray, m, t)
    ensures FinishCall(w, r.st, r.stack, m, r.index).thrown.None?
  {
    assert CallLooping(w.g, st0, s0, r.st, r.stack, gray, m, |w.g.Requested(m)|, r.index, t) && !MayThrow(w, r.st.recs, m)
      by { hide CallLooping, MayThrow; }
    hide QuietEnd, CallLooping;
    RunThrows(w, st0, s0, r.st, r.stack, gray, m, |w.g.Requested(m)|, r.index, t);
    FinishThrows(w, r.st, r.stack, m, r.index);
    hide *;
    if RunBody(w, r.st, m).1.Some? { MayThrowSelf(w, r.st.recs, m); }
  }

  /** A turn of the loop in which nothing throws. */
  lemma QuietTurn(w: World, st0: State, s0: seq<Id>, st: State, s: seq<Id>, gray: set<Id>, m: Id, i: nat, index: int,
                  t: Id)
    requires w.g.Loaded() && CallLooping(w.g, st0, s0, st, s, gray, m, i, index, t) && i < |w.g.Requested(m)|
    requires InnerModuleEvaluation(w, st, s, w.g.Requested(m)[i], index).thrown.None?
    requires
      var child := InnerModuleEvaluation(w, st, s, w.g.Requested(m)[i], index);
      AfterRequest(w, child.st, m, w.g.Requested(m)[i]).1.None?
    ensures var child := InnerModuleEvaluation(w, st, s, w.g.Requested(m)[i], index);
      var st1 := AfterRequest(w, child.st, m, w.g.Requested(m)[i]).0;
      && CallLooping(w.g, st0, s0, st1, child.stack, gray, m, i + 1, child.index, t)
      && Fewer(st.recs, st1.recs) && Unvisited(st1) <= Unvisited(st)
      && EvaluateRequests(w, st, s, m, i, index) == EvaluateRequests(w, st1, child.stack, m, i + 1, child.index)
  {
    hide *;
    var v := w.g.Requested(m)[i];
    LoopUnfolds(w, st, s, m, i, index);
    var child := InnerModuleEvaluation(w, st, s, v, index);
    ChildMayEnter(w.g, st0, s0, st, s, gray, m, i, index, t);
    WalkOk(w, st, s, gray + {m}, v, index, t);
    AfterRequestOk(w, st0, s0, st, s, child.st, child.stack, gray, m, i, index, child.index, t);
    WalkFewer(w, st, s, v, index);
    LookFewer(w, child.st, m, v);
    FewerTrans(st.recs, child.st.recs, AfterRequest(w, child.st, m, v).0.recs);
  }

  /** Below the `i`-th request of `m` nothing may throw: neither does the call, nor what `m`
      does when it has returned. */
  lemma {:induction false} ChildQuiet(w: World, st0: State, s0: seq<Id>, st: State, s: seq<Id>, gray: set<Id>, m: Id,
                                      i: nat, index: int, t: Id)
    requires w.g.Loaded() && CallLooping(w.g, st0, s0, st, s, gray, m, i, index, t) && i < |w.g.Requested(m)|
    requires !MayThrow(w, st.recs, w.g.Requested(m)[i])
    ensures var child := InnerModuleEvaluation(w, st, s, w.g.Requested(m)[i], index);
      child.thrown.None? && AfterRequest(w, child.st, m, w.g.Requested(m)[i]).1.None?
    decreases Unvisited(st), 0, 2
  {
    hide *;
    var v := w.g.Requested(m)[i];
    var child := InnerModuleEvaluation(w, st, s, v, index);
    ChildMayEnter(w.g, st0, s0, st, s, gray, m, i, index, t);
    WalkQuiet(w, st, s, gray + {m}, v, index, t);
    WalkOk(w, st, s, gray + {m}, v, index, t);
    WalkFewer(w, st, s, v, index);
    Carried(w, st.recs, child.st.recs, v);
    LookQuiet(w, st, s, child.st, child.stack, gray + {m}, m, v, child.index, t);
  }

  lemma ThrowAbove(w: World, recs: Recs, m: Id, i: nat)
    requires !MayThrow(w, recs, m) && i < |w.g.Requested(m)|
    ensures !MayThrow(w, recs, w.g.Requested(m)[i])
  {
    var v := w.g.Requested(m)[i];
    assert v in Imports(w.g)(m);
    ReachEdge(Imports(w.g), m, v);
    hide *;
    if MayThrow(w, recs, v) { ThrowBelow(w, recs, m, v); }
  }

  ghost predicate QuietEnd(w: World, st0: State, s0: seq<Id>, r: Walk, gray: set<Id>, m: Id, t: Id) {
    && r.thrown.None? && !MayThrow(w, r.st.recs, m)
    && CallLooping(w.g, st0, s0, r.st, r.stack, gray, m, |w.g.Requested(m)|, r.index, t)
  }

  lemma LoopIsOver(w: World, st: State, s: seq<Id>, m: Id, index: int)
    ensures EvaluateRequests(w, st, s, m, |w.g.Requested(m)|, index) == Walk(st, s, index, None)
  {
    hide InnerModuleEvaluation, AfterRequest;
  }

  lemma QuietOver(w: World, st0: State, s0: seq<Id>, st: State, s: seq<Id>, gray: set<Id>, m: Id, index: int, t: Id)
    requires CallLooping(w.g, st0, s0, st, s, gray, m, |w.g.Requested(m)|, index, t) && !MayThrow(w, st.recs, m)
    ensures QuietEnd(w, st0, s0, Walk(st, s, index, None), gray, m, t)
  {
    hide CallLooping, MayThrow;
  }

  lemma {:induction false} LoopQuiet(w: World, st0: State, s0: seq<Id>, st: State, s: seq<Id>, gray: set<Id>, m: Id,
                                     i: nat, index: int, t: Id)
    requires w.g.Loaded() && CallLooping(w.g, st0, s0, st, s, gray, m, i, index, t) && i <= |w.g.Requested(m)|
    requires !MayThrow(w, st.recs, m)
    ensures QuietEnd(w, st0, s0, EvaluateRequests(w, st, s, m, i, index), gray, m, t)
    decreases Unvisited(st), 1, |w.g.Requested(m)| - i
  {
    hide *;
    if i == |w.g.Requested(m)| {
      LoopIsOver(w, st, s, m, index);
      QuietOver(w, st0, s0, st, s, gray, m, index, t);
    } else {
      ThrowAbove(w, st.recs, m, i);
      ChildQuiet(w, st0, s0, st, s, gray, m, i, index, t);
      QuietTurn(w, st0, s0, st, s, gray, m, i, index, t);
      var child := InnerModuleEvaluation(w, st, s, w.g.Requested(m)[i], index);
      var st1 := AfterRequest(w, child.st, m, w.g.Requested(m)[i]).0;
      Carried(w, st.recs, st1.recs, m);
      LoopQuiet(w, st0, s0, st1, child.stack, gray, m, i + 1, child.index, t);
    }
  }

  // ── Where there is no await, nothing on the stack comes to be waited for ─

  /** What the walk knows of the records at one time. */
  ghost predicate Known(g: Graph, recs: Recs, s: seq<Id>) {
    RecordsOk(g, recs, s) && EdgesUp(g, recs, s) && AsyncReachesTLA(g, recs)
  }

  lemma EvaluatesKnown(g: Graph, st: State, s: seq<Id>, gray: set<Id>, skip: Option<Id>, t: Id)
    requires Evaluates(g, st, s, gray, skip, t)
    ensures Known(g, st.recs, s)
  {
    hide StackOk, BlackMet, BlackAnchored, CountsOn, StartedFree, Entries, Completions, RecordsOk, RootsOk, RequestsMet,
         EdgesUp, ErrorsUp, CycleParents, AsyncReachesTLA;
  }

  /** An edge to the stack from a module that waits now was there before, and the module waited then. */
  lemma OldEdge(g: Graph, r0: Recs, r1: Recs, s0: seq<Id>, s1: seq<Id>, x: Id, p: Id)
    requires Known(g, r0, s0) && Known(g, r1, s1) && Grows(r0, r1, s0, s1)
    requires Waiting(r1, x) && p in Parents(r0, x) && p in s1
    ensures Waiting(r0, x) && p in s0
  {
    assert GrowsAt(r0, r1, s0, s1, x) && EvolvesAt(r0, r1, x);
    assert RecordOk(g, x, r0[x], x in s0) && RecordOk(g, x, r1[x], x in s1);
    assert x in s0 ==> x in s1;
    hide Reach, AsyncReachesTLA;
    assert Waiting(r0, x);
    assert EdgeOk(g, r0, s0, x, p);
    assert GrowsAt(r0, r1, s0, s1, p) && EvolvesAt(r0, r1, p);
    assert RecordOk(g, p, r0[p], p in s0) && RecordOk(g, p, r1[p], p in s1);
  }

  lemma EdgeAwaits(g: Graph, recs: Recs, s: seq<Id>, x: Id, p: Id)
    requires Known(g, recs, s) && Waiting(recs, x) && p in Parents(recs, x)
    ensures ReachesTLA(g, p)
  {
    assert RecordOk(g, x, recs[x], x in s);
    hide Reach, ReachesTLA;
    assert EdgeOk(g, recs, s, x, p) && ReachesTLA(g, x);
    AwaitBelow(g, p, x);
  }

  /** Below `v` there is no top-level await: a call for it strands nothing. */
  lemma StaysCalm(g: Graph, st: State, s: seq<Id>, st1: State, s1: seq<Id>, v: Id)
    requires Known(g, st.recs, s) && Known(g, st1.recs, s1) && Grows(st.recs, st1.recs, s, s1)
    requires NewParents(g, st, st1, v) && !ReachesTLA(g, v) && !Stranding(st.recs, s)
    ensures !Stranding(st1.recs, s1)
  {
    hide Known, Grows, Reach, ReachesTLA;
    forall x: Id, p: Id | Waiting(st1.recs, x) && p in Parents(st1.recs, x) && p in s1 ensures false {
      if p in Parents(st.recs, x) {
        OldEdge(g, st.recs, st1.recs, s, s1, x, p);
      } else {
        EdgeAwaits(g, st1.recs, s1, x, p);
        AwaitBelow(g, v, p);
      }
    }
  }

  lemma CallStaysCalm(w: World, st: State, s: seq<Id>, gray: set<Id>, v: Id, index: int, t: Id)
    requires w.g.Loaded() && MayEnter(w.g, st, s, gray, v, index, t) && !ReachesTLA(w.g, v) && !Stranding(st.recs, s)
    requires InnerModuleEvaluation(w, st, s, v, index).thrown.None?
    ensures var r := InnerModuleEvaluation(w, st, s, v, index); !Stranding(r.st.recs, r.stack)
  {
    var r := InnerModuleEvaluation(w, st, s, v, index);
    hide InnerModuleEvaluation;
    WalkOk(w, st, s, gray, v, index, t);
    WalkParents(w, st, s, v, index);
    CallKnown(w.g, st, s, r.st, r.stack, gray, v, index, r.index, t);
    hide *;
    StaysCalm(w.g, st, s, r.st, r.stack, v);
  }

  lemma CallKnown(g: Graph, st: State, s: seq<Id>, st1: State, s1: seq<Id>, gray: set<Id>, v: Id, index: int,
                  index1: int, t: Id)
    requires MayEnter(g, st, s, gray, v, index, t) && CallDone(g, st, s, st1, s1, gray, v, index1, t)
    ensures Known(g, st.recs, s) && Known(g, st1.recs, s1) && Grows(st.recs, st1.recs, s, s1)
  {
    hide Evaluates, Grows, ParentsAbove, Scc.Searching, Scc.Returned, Known, SyntheticDone, Reach;
    EvaluatesKnown(g, st, s, gray, None, t);
    EvaluatesKnown(g, st1, s1, gray, Some(v), t);
  }

  /** Looking at a request below which there is no top-level await registers nothing. */
  lemma LookStaysCalm(w: World, st: State, s: seq<Id>, st1: State, s1: seq<Id>, gray: set<Id>, m: Id, v: Id,
                      index: int, t: Id)
    requires CallDone(w.g, st, s, st1, s1, gray, v, index, t) && !ReachesTLA(w.g, v) && !Stranding(st1.recs, s1)
    ensures !Stranding(AfterRequest(w, st1, m, v).0.recs, s1)
  {
    ChildPlace(w.g, st, s, st1, s1, gray, v, index, t);
    assert Evaluates(w.g, st1, s1, gray, Some(v), t) by { hide Evaluates, Grows, ParentsAbove, Scc.Returned; }
    EvaluatesKnown(w.g, st1, s1, gray, Some(v), t);
    hide CallDone, Evaluates;
    if w.g.Cyclic(v) { NotAwaited(w.g, st1.recs, s1, v); }
    hide *;
    LookLowers(w, st1, m, v);
    LowerCalm(st1, s1, m, Min(Get(st1, m).dfsAncestorIndex, Get(st1, v).dfsAncestorIndex));
  }

  function Lower(st: State, m: Id, low: int): State {
    Put(st, m, Get(st, m).(dfsAncestorIndex := low))
  }

  lemma LowerCalm(st: State, s: seq<Id>, m: Id, low: int)
    requires !Stranding(st.recs, s)
    ensures !Stranding(Lower(st, m, low).recs, s)
  {
    var st1 := Lower(st, m, low);
    assert forall x: Id :: Waiting(st1.recs, x) == Waiting(st.recs, x) && Parents(st1.recs, x) == Parents(st.recs, x);
    hide Lower;
  }

  /** Looking at a request that is not asynchronous lowers `dfsAncestorIndex` at most. */
  lemma LookLowers(w: World, st: State, m: Id, v: Id)
    requires w.g.Cyclic(v) ==> v < |st.recs| && !Async(st.recs, v)
    requires w.g.Cyclic(v) && !st.recs[v].status.Evaluating? && Rooted(st.recs, v) ==> !Async(st.recs, Root(st.recs, v))
    ensures var st1 := AfterRequest(w, st, m, v).0;
      st1 == st || st1 == Lower(st, m, Min(Get(st, m).dfsAncestorIndex, Get(st, v).dfsAncestorIndex))
  {
  }

  lemma NotAwaited(g: Graph, recs: Recs, s: seq<Id>, v: Id)
    requires Known(g, recs, s) && !ReachesTLA(g, v) && v < |recs| && (v !in s ==> Rooted(recs, v) && RootOk(g, recs, v))
    ensures !Async(recs, v) && (v !in s ==> !Async(recs, Root(recs, v)))
  {
    hide Reach, RecordsOk, EdgesUp, ReachesTLA;
    if v !in s && Async(recs, Root(recs, v)) {
      assert ReachesTLA(g, Root(recs, v));
      AwaitBelow(g, v, Root(recs, v));
    }
  }

  // ── A safe call strands nothing ──────────────────────────────────────────

  /** A request of `m` before its `i`-th has top-level await below it. */
  ghost predicate Awaited(g: Graph, m: Id, i: nat) {
    exists j | 0 <= j < i && j < |g.Requested(m)| :: ReachesTLA(g, g.Requested(m)[j])
  }

  ghost predicate Unstranded(r: Walk) {
    r.thrown.Some? ==> !Stranding(r.st.recs, r.stack)
  }

  lemma SyntheticCalm(w: World, st: State, s: seq<Id>, v: Id, index: int)
    requires !w.g.Cyclic(v) && !Stranding(st.recs, s)
    ensures Unstranded(InnerModuleEvaluation(w, st, s, v, index))
  {
    hide EvaluateRequests, FinishCall;
    var r := InnerModuleEvaluation(w, st, s, v, index);
    assert forall x: Id :: Waiting(r.st.recs, x) == Waiting(st.recs, x) && Parents(r.st.recs, x) == Parents(st.recs, x);
    hide InnerModuleEvaluation;
  }

  lemma EnterCalm(g: Graph, st: State, s: seq<Id>, gray: set<Id>, v: Id, index: int, t: Id)
    requires
      && MayEnter(g, st, s, gray, v, index, t)
      && g.Cyclic(v)
      && !Visited(st.recs[v].status)
      && !Stranding(st.recs, s)
    ensures !Stranding(Put(st, v, Entered(st.recs[v], index)).recs, s + [v])
  {
    assert Evaluates(g, st, s, gray, None, t) && v < |st.recs| by { hide Evaluates, Scc.Searching; }
    EvaluatesKnown(g, st, s, gray, None, t);
    assert v !in s by { FreshOffStack(g, st.recs, s, v); }
    var r1 := Put(st, v, Entered(st.recs[v], index)).recs;
    hide MayEnter, Evaluates, Known;
    assert forall x: Id :: (Waiting(r1, x) ==> Waiting(st.recs, x)) && Parents(r1, x) == Parents(st.recs, x);
    forall x: Id, p: Id | Waiting(r1, x) && p in Parents(r1, x) && p in s + [v] ensures false {
      if p == v { FreshNoParent(g, st.recs, s, x, v); }
    }
  }

  lemma FreshOffStack(g: Graph, recs: Recs, s: seq<Id>, v: Id)
    requires Known(g, recs, s) && g.Cyclic(v) && v < |recs| && !Visited(recs[v].status)
    ensures v !in s && !Rooted(recs, v)
  {
    hide EdgesUp, AsyncReachesTLA;
    assert RecordOk(g, v, recs[v], v in s);
  }

  lemma FreshNoParent(g: Graph, recs: Recs, s: seq<Id>, x: Id, v: Id)
    requires Known(g, recs, s) && g.Cyclic(v) && v < |recs| && !Visited(recs[v].status) && Waiting(recs, x)
    ensures v !in Parents(recs, x)
  {
    FreshOffStack(g, recs, s, v);
    assert RecordOk(g, x, recs[x], x in s);
    hide AsyncReachesTLA, Reach, RecordOk;
    var edge := EdgeOk(g, recs, s, x, v);
  }

  lemma {:induction false} WalkSafe(w: World, st: State, s: seq<Id>, gray: set<Id>, v: Id, index: int, t: Id)
    requires w.g.Loaded() && MayEnter(w.g, st, s, gray, v, index, t)
    requires Safe(w, st.recs, v) && !Stranding(st.recs, s)
    ensures Unstranded(InnerModuleEvaluation(w, st, s, v, index))
    decreases Unvisited(st), 0, 1
  {
    assert v < |st.recs| by { hide Evaluates, Scc.Searching; }
    var r := InnerModuleEvaluation(w, st, s, v, index);
    if w.g.Cyclic(v) && !Visited(st.recs[v].status) {
      var st1 := Put(st, v, Entered(st.recs[v], index));
      PutFewer(st, v, Entered(st.recs[v], index));
      EnterCalm(w.g, st, s, gray, v, index, t);
      hide *;
      EnterCall(w.g, st, s, gray, v, index, t);
      FreshUnfolds(w, st, s, v, index);
      CarriedSafe(w, st.recs, st1.recs, v);
      LoopSafe(w, st, s, st1, s + [v], gray, v, 0, index + 1, t);
      var looped := EvaluateRequests(w, st1, s + [v], v, 0, index + 1);
      if looped.thrown.None? { FinishSafe(w, st, s, looped, gray, v, t); }
    } else if w.g.Cyclic(v) {
      hide InnerModuleEvaluation, MayEnter, Safe, Stranding;
      OldParents(w, st, s, v, index);
    } else {
      hide MayEnter, Safe;
      SyntheticCalm(w, st, s, v, index);
    }
  }

  ghost predicate SafeEnd(w: World, st0: State, s0: seq<Id>, r: Walk, gray: set<Id>, m: Id, t: Id) {
    if r.thrown.Some? then !Stranding(r.st.recs, r.stack)
    else
      && CallLooping(w.g, st0, s0, r.st, r.stack, gray, m, |w.g.Requested(m)|, r.index, t)
      && Safe(w, r.st.recs, m)
      && (Awaited(w.g, m, |w.g.Requested(m)|) || !Stranding(r.st.recs, r.stack))
  }

  /** If the body of `m` throws, no request of `m` has top-level await below it. */
  lemma FinishSafe(w: World, st0: State, s0: seq<Id>, r: Walk, gray: set<Id>, m: Id, t: Id)
    requires SafeEnd(w, st0, s0, r, gray, m, t) && r.thrown.None?
    ensures Unstranded(FinishCall(w, r.st, r.stack, m, r.index))
  {
    assert CallLooping(w.g, st0, s0, r.st, r.stack, gray, m, |w.g.Requested(m)|, r.index, t)
      by { hide CallLooping, Safe, Awaited, Stranding; }
    assert Safe(w, r.st.recs, m) && (Awaited(w.g, m, |w.g.Requested(m)|) || !Stranding(r.st.recs, r.stack))
      by { hide CallLooping, Safe, Awaited, Stranding; }
    hide SafeEnd, CallLooping;
    RunThrows(w, st0, s0, r.st, r.stack, gray, m, |w.g.Requested(m)|, r.index, t);
    FinishThrows(w, r.st, r.stack, m, r.index);
    hide FinishCall;
    if RunBody(w, r.st, m).1.Some? {
      NotAwaitedFails(w, r.st.recs, m);
      RunCalm(w, r.st, r.stack, m);
    }
  }

  lemma NotAwaitedFails(w: World, recs: Recs, m: Id)
    requires Safe(w, recs, m) && WouldFail(w, recs, m)
    ensures !Awaited(w.g, m, |w.g.Requested(m)|)
  {
    ReachRefl(Imports(w.g), m);
    SafeBelow(w, recs, m, m);
    hide Reach, Safe, ReachesTLA, MayThrow;
    if Awaited(w.g, m, |w.g.Requested(m)|) {
      var j: nat :| j < |w.g.Requested(m)| && ReachesTLA(w.g, w.g.Requested(m)[j]);
      assert w.g.Requested(m)[j] in Imports(w.g)(m);
      ReachEdge(Imports(w.g), m, w.g.Requested(m)[j]);
      AwaitBelow(w.g, m, w.g.Requested(m)[j]);
    }
  }

  lemma RunCalm(w: World, st: State, s: seq<Id>, m: Id)
    requires RunBody(w, st, m).1.Some? && !Stranding(st.recs, s)
    ensures !Stranding(RunBody(w, st, m).0.recs, s)
  {
    var st1 := RunBody(w, st, m).0;
    assert forall x: Id :: Waiting(st1.recs, x) == Waiting(st.recs, x) && Parents(st1.recs, x) == Parents(st.recs, x);
    hide RunBody;
  }

  /** `m` throws at a request whose call has returned only if that had failed before. */
  lemma LookSafe(w: World, st0: State, s0: seq<Id>, st: State, s: seq<Id>, gray: set<Id>, m: Id, i: nat, index: int,
                 t: Id)
    requires w.g.Loaded() && CallLooping(w.g, st0, s0, st, s, gray, m, i, index, t) && i < |w.g.Requested(m)|
    requires !Stranding(st.recs, s) && InnerModuleEvaluation(w, st, s, w.g.Requested(m)[i], index).thrown.None?
    requires
      var child := InnerModuleEvaluation(w, st, s, w.g.Requested(m)[i], index);
      AfterRequest(w, child.st, m, w.g.Requested(m)[i]).1.Some?
    ensures var child := InnerModuleEvaluation(w, st, s, w.g.Requested(m)[i], index);
      !Stranding(AfterRequest(w, child.st, m, w.g.Requested(m)[i]).0.recs, child.stack)
  {
    hide *;
    var v := w.g.Requested(m)[i];
    var child := InnerModuleEvaluation(w, st, s, v, index);
    ChildMayEnter(w.g, st0, s0, st, s, gray, m, i, index, t);
    WalkOk(w, st, s, gray + {m}, v, index, t);
    LookThrows(w, st, s, child.st, child.stack, gray + {m}, m, v, child.index, t);
    LookFailed(w, st, s, child, gray + {m}, m, v, t);
    OldParents(w, st, s, v, index);
  }

  lemma LookFailed(w: World, st: State, s: seq<Id>, r: Walk, gray: set<Id>, m: Id, v: Id, t: Id)
    requires CallDone(w.g, st, s, r.st, r.stack, gray, v, r.index, t) && OwnRoot(w.g, st, r, v)
    requires AfterRequest(w, r.st, m, v).1.Some? && EvolvesAll(st.recs, r.st.recs)
    ensures w.g.Cyclic(v) && v < |st.recs| && Visited(st.recs[v].status)
  {
    ChildPlace(w.g, st, s, r.st, r.stack, gray, v, r.index, t);
    hide CallDone, RootOk, EvolvesAt;
  }

  /** The `i`-th request of `m` comes after one with top-level await below it. */
  lemma AwaitedQuiet(w: World, recs: Recs, m: Id, i: nat)
    requires Safe(w, recs, m) && Awaited(w.g, m, i) && i < |w.g.Requested(m)|
    ensures !MayThrow(w, recs, w.g.Requested(m)[i])
  {
    ReachRefl(Imports(w.g), m);
    SafeBelow(w, recs, m, m);
    hide Reach, Safe, ReachesTLA, MayThrow;
    var j: nat :| j < i && ReachesTLA(w.g, w.g.Requested(m)[j]);
  }

  lemma AwaitedNext(g: Graph, m: Id, i: nat)
    requires i < |g.Requested(m)| && (Awaited(g, m, i) || ReachesTLA(g, g.Requested(m)[i]))
    ensures Awaited(g, m, i + 1)
  {
    hide ReachesTLA;
  }

  lemma SafeRequest(w: World, recs: Recs, m: Id, i: nat)
    requires Safe(w, recs, m) && i < |w.g.Requested(m)|
    ensures Safe(w, recs, w.g.Requested(m)[i])
  {
    assert w.g.Requested(m)[i] in Imports(w.g)(m);
    ReachEdge(Imports(w.g), m, w.g.Requested(m)[i]);
    SafeBelow(w, recs, m, w.g.Requested(m)[i]);
    hide *;
  }

  lemma {:induction false} LoopSafe(w: World, st0: State, s0: seq<Id>, st: State, s: seq<Id>, gray: set<Id>, m: Id,
                                    i: nat, index: int, t: Id)
    requires w.g.Loaded() && CallLooping(w.g, st0, s0, st, s, gray, m, i, index, t) && i <= |w.g.Requested(m)|
    requires Safe(w, st.recs, m) && (Awaited(w.g, m, i) || !Stranding(st.recs, s))
    ensures SafeEnd(w, st0, s0, EvaluateRequests(w, st, s, m, i, index), gray, m, t)
    decreases Unvisited(st), 1, |w.g.Requested(m)| - i
  {
    hide *;
    if i == |w.g.Requested(m)| {
      LoopIsOver(w, st, s, m, index);
      SafeOver(w, st0, s0, st, s, gray, m, index, t);
    } else if Awaited(w.g, m, i) {
      AwaitedQuiet(w, st.recs, m, i);
      ChildQuiet(w, st0, s0, st, s, gray, m, i, index, t);
      AwaitedNext(w.g, m, i);
      NextSafe(w, st0, s0, st, s, gray, m, i, index, t);
    } else {
      var v := w.g.Requested(m)[i];
      var child := InnerModuleEvaluation(w, st, s, v, index);
      LoopUnfolds(w, st, s, m, i, index);
      SafeRequest(w, st.recs, m, i);
      ChildMayEnter(w.g, st0, s0, st, s, gray, m, i, index, t);
      WalkSafe(w, st, s, gray + {m}, v, index, t);
      if child.thrown.Some? {
        ThrownSafe(w, st0, s0, child, gray, m, t);
      } else if AfterRequest(w, child.st, m, v).1.Some? {
        LookSafe(w, st0, s0, st, s, gray, m, i, index, t);
        var (st1, thrown) := AfterRequest(w, child.st, m, v);
        LookedSafe(w, st0, s0, Walk(st1, child.stack, child.index, thrown), gray, m, t);
      } else {
        TurnCalm(w, st0, s0, st, s, gray, m, i, index, t);
        NextSafe(w, st0, s0, st, s, gray, m, i, index, t);
      }
    }
  }

  lemma {:induction false} NextSafe(w: World, st0: State, s0: seq<Id>, st: State, s: seq<Id>, gray: set<Id>, m: Id,
                                    i: nat, index: int, t: Id)
    requires w.g.Loaded() && CallLooping(w.g, st0, s0, st, s, gray, m, i, index, t) && i < |w.g.Requested(m)|
    requires Safe(w, st.recs, m) && InnerModuleEvaluation(w, st, s, w.g.Requested(m)[i], index).thrown.None?
    requires
      var child := InnerModuleEvaluation(w, st, s, w.g.Requested(m)[i], index);
      var (st1, thrown) := AfterRequest(w, child.st, m, w.g.Requested(m)[i]);
      thrown.None? && (Awaited(w.g, m, i + 1) || !Stranding(st1.recs, child.stack))
    ensures SafeEnd(w, st0, s0, EvaluateRequests(w, st, s, m, i, index), gray, m, t)
    decreases Unvisited(st), 1, |w.g.Requested(m)| - i, 0
  {
    hide *;
    QuietTurn(w, st0, s0, st, s, gray, m, i, index, t);
    var child := InnerModuleEvaluation(w, st, s, w.g.Requested(m)[i], index);
    var st1 := AfterRequest(w, child.st, m, w.g.Requested(m)[i]).0;
    CarriedSafe(w, st.recs, st1.recs, m);
    LoopSafe(w, st0, s0, st1, child.stack, gray, m, i + 1, child.index, t);
  }

  /** After a turn without a throw: there is await below the request, or nothing is stranded. */
  lemma TurnCalm(w: World, st0: State, s0: seq<Id>, st: State, s: seq<Id>, gray: set<Id>, m: Id, i: nat, index: int,
                 t: Id)
    requires w.g.Loaded() && CallLooping(w.g, st0, s0, st, s, gray, m, i, index, t) && i < |w.g.Requested(m)|
    requires !Stranding(st.recs, s) && InnerModuleEvaluation(w, st, s, w.g.Requested(m)[i], index).thrown.None?
    ensures var child := InnerModuleEvaluation(w, st, s, w.g.Requested(m)[i], index);
      Awaited(w.g, m, i + 1) || !Stranding(AfterRequest(w, child.st, m, w.g.Requested(m)[i]).0.recs, child.stack)
  {
    hide *;
    var v := w.g.Requested(m)[i];
    var child := InnerModuleEvaluation(w, st, s, v, index);
    if ReachesTLA(w.g, v) {
      AwaitedNext(w.g, m, i);
    } else {
      ChildMayEnter(w.g, st0, s0, st, s, gray, m, i, index, t);
      WalkOk(w, st, s, gray + {m}, v, index, t);
      CallStaysCalm(w, st, s, gray + {m}, v, index, t);
      LookStaysCalm(w, st, s, child.st, child.stack, gray + {m}, m, v, child.index, t);
    }
  }

  lemma SafeOver(w: World, st0: State, s0: seq<Id>, st: State, s: seq<Id>, gray: set<Id>, m: Id, index: int, t: Id)
    requires CallLooping(w.g, st0, s0, st, s, gray, m, |w.g.Requested(m)|, index, t) && Safe(w, st.recs, m)
    requires Awaited(w.g, m, |w.g.Requested(m)|) || !Stranding(st.recs, s)
    ensures SafeEnd(w, st0, s0, Walk(st, s, index, None), gray, m, t)
  {
    hide CallLooping, Safe, Awaited, Stranding;
  }

  lemma ThrownSafe(w: World, st0: State, s0: seq<Id>, r: Walk, gray: set<Id>, m: Id, t: Id)
    requires Unstranded(r) && r.thrown.Some?
    ensures SafeEnd(w, st0, s0, r, gray, m, t)
  {
    hide Stranding;
  }

  lemma LookedSafe(w: World, st0: State, s0: seq<Id>, r: Walk, gray: set<Id>, m: Id, t: Id)
    requires !Stranding(r.st.recs, r.stack) && r.thrown.Some?
    ensures SafeEnd(w, st0, s0, r, gray, m, t)
  {
    hide Stranding;
  }

  /** H2 holds of a call of `evaluate(m)` when nothing below `m` requests a module that may
      throw after one with top-level await below it. */
  lemma SafeNeverStrands(w: World, st: State, m: Id)
    requires w.g.Loaded() && Resting(w.g, st) && m < |st.recs| && Safe(w, st.recs, m)
    ensures !Strands(w, st, m)
  {
    var t := Target(w, st, m);
    TargetInRange(w, st, m);
    TargetBelow(w, st, m);
    SafeBelow(w, st.recs, m, t);
    assert Strands(w, st, m) ==> Walks(w, st, m) by { hide Stranding, Attempt; }
    if Walks(w, st, m) {
      assert st.recs[t].topLevelCapability.NoCapability?;
      PutFewer(st, t, st.recs[t].(topLevelCapability := Pending));
      var st1 := Opened(st, t);
      assert st1 == Put(st, t, st.recs[t].(topLevelCapability := Pending));
      assert Attempt(w, st, t) == InnerModuleEvaluation(w, st1, [], t, 0);
      hide Resting, Safe, Fewer, Target, Attempt, InnerModuleEvaluation;
      CarriedSafe(w, st.recs, st1.recs, t);
      MayBegin(w.g, st, t);
      hide MayEnter, Reach;
      WalkSafe(w, st1, [], {}, t, 0, t);
    }
  }

  /** So it does when there is no top-level await below `m`, and when nothing below `m` has
      failed or would fail. */
  lemma SafeCases(w: World, recs: Recs, m: Id)
    requires !ReachesTLA(w.g, m) || !MayThrow(w, recs, m)
    ensures Safe(w, recs, m)
  {
    forall p: Id | Reach(Imports(w.g), m, p) ensures SafeAt(w, recs, p) {
      hide Reach;
      if ReachesTLA(w.g, p) { AwaitBelow(w.g, m, p); }
      hide ReachesTLA;
      if WouldFail(w, recs, p) {
        MayThrowSelf(w, recs, p);
        if MayThrow(w, recs, p) { ThrowBelow(w, recs, m, p); }
      }
      hide MayThrow, WouldFail;
      forall i, j | 0 <= i < j < |w.g.Requested(p)| && ReachesTLA(w.g, w.g.Requested(p)[i])
        ensures !MayThrow(w, recs, w.g.Requested(p)[j])
      {
        assert w.g.Requested(p)[i] in Imports(w.g)(p) && w.g.Requested(p)[j] in Imports(w.g)(p);
        ReachEdge(Imports(w.g), p, w.g.Requested(p)[i]);
        ReachEdge(Imports(w.g), p, w.g.Requested(p)[j]);
        AwaitBelow(w.g, p, w.g.Requested(p)[i]);
        if MayThrow(w, recs, w.g.Requested(p)[j]) {
          ThrowBelow(w, recs, p, w.g.Requested(p)[j]);
          ThrowBelow(w, recs, m, p);
        }
      }
    }
  }
}
