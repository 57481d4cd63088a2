/** How each kind of step moves the records on: linking prepares what no evaluation has
    visited, an evaluation stays within what its target reaches, and settling a body
    touches only what has been visited. */
module Moves {
  import opened ModuleGraph
  import opened Reachability
  import opened Records
  import opened Evaluation
  import opened AsyncState
  import opened Descend
  import opened EvaluateCall
  import opened Wake
  import Linker

  // ── Settling a body only moves records on ────────────────────────────────

  /** Records move on, nothing becomes asynchronous that was not, and what no evaluation
      has visited is left alone. */
  ghost predicate Onward(st0: State, st1: State) {
    && EvolvesAll(st0.recs, st1.recs) && st0.log <= st1.log
    && (forall x: Id | Async(st1.recs, x) :: Async(st0.recs, x))
    && (forall x: Id | x < |st0.recs| && !Visited(st0.recs[x].status) :: SameShape(st0.recs[x], st1.recs[x]))
  }

  lemma OnwardTrans(st0: State, st1: State, st2: State)
    requires Onward(st0, st1) && Onward(st1, st2)
    ensures Onward(st0, st2)
  {
    EvolvesTrans(st0.recs, st1.recs, st2.recs);
    hide EvolvesAll;
  }

  lemma OnwardTLA(g: Graph, st0: State, st1: State)
    requires Onward(st0, st1) && AsyncReachesTLA(g, st0.recs)
    ensures AsyncReachesTLA(g, st1.recs)
  {
    hide ReachesTLA, EvolvesAll;
    forall x: Id | Async(st1.recs, x) ensures ReachesTLA(g, x) { assert Async(st0.recs, x); }
  }

  lemma FailOnward(st: State, st1: State, e: Error)
    requires FailStep(st, st1, e) && forall x: Id | Hit(st.recs, st1.recs, x) :: Waiting(st.recs, x)
    ensures Onward(st, st1)
  {
    hide RejectionLogged, FailClosed;
    forall x: Id ensures EvolvesAt(st.recs, st1.recs, x) && (Async(st1.recs, x) ==> Async(st.recs, x)) {
      assert x < |st.recs| ==> RecFails(st.recs, st1.recs, e, x);
    }
    hide EvolvesAll;
    forall x: Id | x < |st.recs| && !Visited(st.recs[x].status) ensures SameShape(st.recs[x], st1.recs[x]) {
      assert RecFails(st.recs, st1.recs, e, x);
    }
  }

  lemma PutOnward(st: State, m: Id, r: Rec, st1: State)
    requires m < |st.recs| && st1.recs == st.recs[m := r] && st.log <= st1.log
    requires Evolves(st.recs[m], r) && (r.asyncEvaluation ==> st.recs[m].asyncEvaluation) && Visited(st.recs[m].status)
    ensures Onward(st, st1)
  {
    forall x: Id ensures EvolvesAt(st.recs, st1.recs, x) {}
  }

  lemma ShapeOnward(st: State, st1: State)
    requires SameButPending(st.recs, st1.recs) && st1.log == st.log
    ensures Onward(st, st1)
  {
    forall x: Id ensures EvolvesAt(st.recs, st1.recs, x) && (Async(st1.recs, x) ==> Async(st.recs, x)) {
      assert x < |st.recs| ==> SameShape(st.recs[x], st1.recs[x]);
    }
    hide EvolvesAll;
    assert forall x: Id | x < |st.recs| :: SameShape(st.recs[x], st1.recs[x]);
  }

  lemma OnwardRefl(st: State)
    ensures Onward(st, st)
  {
    EvolvesRefl(st.recs);
  }

  lemma BeginOnward(st: State, p: Id, body: Body)
    requires Waiting(st.recs, p) && st.recs[p].body.Unstarted? && !body.Unstarted?
    ensures Onward(st, Begin(st, p, body))
  {
    var st1 := Begin(st, p, body);
    PutOnward(st, p, st1.recs[p], st1);
  }

  lemma RunReadyOnward(w: World, st: State, queue: seq<Id>)
    requires Awake(w.g, st, queue) && queue != []
    ensures Onward(st, RunReady(w, st, queue[0]))
  {
    var p := queue[0];
    FirstFacts(w.g, st, queue);
    hide Awake, Onward, FailModule;
    if st.recs[p].status.Evaluated? {
      OnwardRefl(st);
    } else if w.g.HasTLA(p) {
      BeginOnward(st, p, Running);
    } else {
      BeginOnward(st, p, Over);
      var st1 := Begin(st, p, Over);
      if p in w.fails {
        ReadyHitsWait(w, st, queue);
        FailModuleOk(w, st1, p, w.fails[p]);
        FailOnward(st1, FailModule(w, st1, p, w.fails[p]), w.fails[p]);
        OnwardTrans(st, st1, FailModule(w, st1, p, w.fails[p]));
      } else {
        CompleteOnward(st1, p);
        OnwardTrans(st, st1, Complete(st1, p));
      }
    }
  }

  lemma ReadyHitsWait(w: World, st: State, queue: seq<Id>)
    requires
      && Awake(w.g, st, queue)
      && queue != []
      && Waiting(st.recs, queue[0])
      && !w.g.HasTLA(queue[0])
      && queue[0] in w.fails
    ensures var st1 := Begin(st, queue[0], Over);
      forall x: Id | Hit(st1.recs, FailModule(w, st1, queue[0], w.fails[queue[0]]).recs, x) :: Waiting(st1.recs, x)
  {
    var p, st1 := queue[0], Begin(st, queue[0], Over);
    hide Books, FailedFrom, FailModule, QueueCounts, StartedFree, InOrder, QueuedOk;
    StartedStructure(w.g, st.recs, p, st1.recs[p]);
    hide Structure, Waking, Awake;
    FailFrom(w, st1, p, w.fails[p]);
    HitWaits(w.g, st1.recs, FailModule(w, st1, p, w.fails[p]).recs, p, w.fails[p]);
  }

  lemma CompleteOnward(st: State, p: Id)
    requires Waiting(st.recs, p)
    ensures Onward(st, Complete(st, p))
  {
    var st1 := Complete(st, p);
    assert st1.recs == st.recs[p := st1.recs[p]];
    PutOnward(st, p, st1.recs[p], st1);
  }

  lemma {:induction false} RunAllOnward(w: World, st: State, queue: seq<Id>)
    requires Awake(w.g, st, queue)
    ensures Onward(st, RunAllReady(w, st, queue))
    decreases |queue|
  {
    hide Awake, Onward, RunReady;
    if queue == [] {
      OnwardRefl(st);
    } else {
      var st1 := RunReady(w, st, queue[0]);
      RunReadyOk(w, st, queue);
      RunReadyOnward(w, st, queue);
      RunAllOnward(w, st1, queue[1..]);
      OnwardTrans(st, st1, RunAllReady(w, st1, queue[1..]));
    }
  }

  lemma SettleOkOnward(w: World, st: State, m: Id)
    requires Quiescent(w.g, st.recs) && Books(w.g, st) && m < |st.recs| && st.recs[m].body.Running?
    ensures Onward(st, SettleOk(w, st, m).st)
  {
    assert RecordsOk(w.g, st.recs, []) by { hide Books; }
    RunningIsUnsettled(w.g, st.recs, m);
    var st1 := Put(st, m, Get(st, m).(body := Over));
    if Waiting(st.recs, m) {
      SettleOkWakes(w, st, m);
      var st2 := Complete(st1, m);
      assert st2.recs == st.recs[m := st2.recs[m]];
      hide Quiescent, Books, Gather, Complete, SortByOrder, RunAllReady, SettleOk, RecordsOk, Onward, Awake;
      var gathered := Gather(w, st2, Parents(st.recs, m), []);
      var queue := SortByOrder(gathered.st, gathered.list);
      PutOnward(st, m, st2.recs[m], st2);
      ShapeOnward(st2, gathered.st);
      RunAllOnward(w, gathered.st, queue);
      OnwardTrans(st, st2, gathered.st);
      OnwardTrans(st, gathered.st, RunAllReady(w, gathered.st, queue));
    } else {
      PutOnward(st, m, st1.recs[m], st1);
    }
  }

  lemma SettleErrorOnward(w: World, st: State, m: Id, e: Error)
    requires Quiescent(w.g, st.recs) && Books(w.g, st) && m < |st.recs| && st.recs[m].body.Running?
    ensures Onward(st, SettleError(w, st, m, e))
  {
    assert RecordsOk(w.g, st.recs, []) by { hide Books; }
    RunningIsUnsettled(w.g, st.recs, m);
    var st1 := Put(st, m, Get(st, m).(body := Over));
    assert Evolves(st.recs[m], st1.recs[m]);
    if Waiting(st.recs, m) {
      BodyOver(w.g, st, m);
      FailFrom(w, st1, m, e);
      hide Quiescent, Books, BooksBut, RecordsOk, FailModule, Onward, Evolves, Structure;
      HitWaits(w.g, st1.recs, FailModule(w, st1, m, e).recs, m, e);
    } else {
      hide Quiescent, Books, RecordsOk, Onward, Evolves;
      assert FailModule(w, st1, m, e) == st1;
    }
    hide Quiescent, Books, BooksBut, RecordsOk, FailModule, Onward, Evolves, Structure;
    PutOnward(st, m, st1.recs[m], st1);
    FailModuleOk(w, st1, m, e);
    FailOnward(st1, FailModule(w, st1, m, e), e);
    OnwardTrans(st, st1, FailModule(w, st1, m, e));
  }

  // ── Loading and linking between evaluations ──────────────────────────────

  /** What loading and linking may do: records not yet visited by an evaluation change,
      and stay unvisited. */
  ghost predicate PreparedAt(g: Graph, a: Rec, b: Rec, x: Id) {
    b == a || (g.Cyclic(x) && !Visited(a.status) && !Visited(b.status) && !b.status.Linking? && (Linker.Past(a.status) ==> Linker.Past(b.status))
      && (a.getters.Some? ==> b.getters == a.getters)
      && b == a.(status := b.status, dfsIndex := b.dfsIndex, dfsAncestorIndex := b.dfsAncestorIndex,
                 imp := b.imp, code := b.code, getters := b.getters))
  }

  ghost predicate Prepares(g: Graph, st: State, st1: State) {
    && |st.recs| == |st1.recs| && st1 == st.(recs := st1.recs, envs := st1.envs)
    && NewEnvironments(st, st1)
    && forall x: Id {:trigger PreparedAt(g, st.recs[x], st1.recs[x], x)} | x < |st.recs| :: PreparedAt(g, st.recs[x], st1.recs[x], x)
  }

  lemma PreparedFacts(g: Graph, st: State, st1: State)
    requires RecordsOk(g, st.recs, []) && Prepares(g, st, st1)
    ensures RecordsOk(g, st1.recs, [])
    ensures forall x: Id :: Waiting(st1.recs, x) == Waiting(st.recs, x) && Fine(st1.recs, x) == Fine(st.recs, x)
    ensures forall x: Id ::
        Errored(st1.recs, x) == Errored(st.recs, x) && SyntheticDone(st1.recs, x) == SyntheticDone(st.recs, x)
    ensures forall x: Id :: Rooted(st1.recs, x) == Rooted(st.recs, x) && Root(st1.recs, x) == Root(st.recs, x)
    ensures forall x: Id ::
        Parents(st1.recs, x) == Parents(st.recs, x) && Order(st1.recs, x) == Order(st.recs, x) && Async(st1.recs, x) == Async(st.recs, x)
    ensures forall x: Id | x < |st.recs| ::
        st1.recs[x].body == st.recs[x].body && st1.recs[x].pendingAsyncDependencies == st.recs[x].pendingAsyncDependencies
  {
    forall x: Id | x < |st.recs| ensures RecordOk(g, x, st1.recs[x], false) {
      assert PreparedAt(g, st.recs[x], st1.recs[x], x) && RecordOk(g, x, st.recs[x], false);
    }
    assert forall x: Id | x < |st.recs| :: PreparedAt(g, st.recs[x], st1.recs[x], x);
  }

  lemma PreparedStructure(g: Graph, st: State, st1: State)
    requires Structure(g, st.recs, []) && Prepares(g, st, st1)
    ensures Structure(g, st1.recs, [])
  {
    var recs, r1 := st.recs, st1.recs;
    PreparedFacts(g, st, st1);
    hide Reach, RecordsOk, Prepares;
    forall x: Id | Rooted(r1, x) ensures RootOk(g, r1, x) { assert RootOk(g, recs, x); }
    forall x: Id, y: Id | Rooted(r1, x) && y in g.Requested(x)
      ensures RequestMet(g, r1, x, y)
    {
      assert RequestMet(g, recs, x, y);
    }
    forall x: Id, p: Id | p in Parents(r1, x) && (Rooted(r1, x) || x in [])
      ensures EdgeOk(g, r1, [], x, p)
    {
      assert EdgeOk(g, recs, [], x, p);
    }
    forall x: Id | Rooted(r1, x) && Root(r1, x) != x && (Waiting(r1, x) || Errored(r1, x))
      ensures HasCycleParent(r1, x)
    {
      assert HasCycleParent(recs, x);
      var p :| p in Parents(recs, x) && Rooted(recs, p) && Root(recs, p) == Root(recs, x);
      assert p in Parents(r1, x) && Rooted(r1, p) && Root(r1, p) == Root(r1, x);
    }
  }

  lemma PreparedCounts(g: Graph, st: State, st1: State)
    requires RecordsOk(g, st.recs, []) && Counted(st.recs) && StartedFree(st.recs) && Prepares(g, st, st1)
    ensures Counted(st1.recs) && StartedFree(st1.recs)
  {
    var recs, r1 := st.recs, st1.recs;
    PreparedFacts(g, st, st1);
    hide RecordsOk, Prepares, Occ;
    assert LiveSet(r1) == LiveSet(recs);
    forall p: Id | Waiting(r1, p) && !Errored(r1, Root(r1, p)) ensures PendingOk(r1, LiveSet(r1), p) && StartOk(r1, p) {
      assert PendingOk(recs, LiveSet(recs), p) && StartOk(recs, p);
      OccSame(recs, r1, LiveSet(recs), LiveSet(recs), p);
    }
  }

  lemma PreparedBooks(g: Graph, st: State, st1: State)
    requires Books(g, st) && Prepares(g, st, st1)
    ensures Books(g, st1)
  {
    hide StartsInOrder;
    forall x: Id ensures LoggedAt(g, st1, None, x) {
      assert LoggedAt(g, st, None, x);
      assert x < |st.recs| ==> PreparedAt(g, st.recs[x], st1.recs[x], x);
    }
    assert forall x: Id | x < |st.recs| :: PreparedAt(g, st.recs[x], st1.recs[x], x);
  }

  lemma PreparedRests(g: Graph, st: State, st1: State)
    requires Resting(g, st) && Prepares(g, st, st1)
    ensures Resting(g, st1)
  {
    PreparedStructure(g, st, st1);
    PreparedCounts(g, st, st1);
    PreparedBooks(g, st, st1);
    assert RecordsOk(g, st.recs, []) by { hide Books, Counted, Prepares, StartedFree, AsyncReachesTLA; }
    PreparedFacts(g, st, st1);
    hide Structure, Counted, StartedFree, Books, RecordsOk, Prepares, ReachesTLA;
    forall x: Id | Async(st1.recs, x) ensures ReachesTLA(g, x) { assert Async(st.recs, x); }
  }

  // ── What linking has made stays made ─────────────────────────────────────

  /** A generator has its environment from link time on; a plain function's module has
      one from the moment its body is entered. */
  ghost predicate EnvironmentOk(r: Rec) {
    (r.status.New? ==> r.code.NotCompiled?) &&
    match r.code
    case NotCompiled => r.getters.None?
    case Plain => r.getters.Some? <==> !r.body.Unstarted?
    case Generator => r.getters.Some?
  }

  /** What linking leaves, and every step keeps. */
  ghost predicate LinkedOk(g: Graph, recs: Recs) {
    && Linker.LinkQuiet(g, recs)
    && forall x: Id {:trigger EnvironmentOk(recs[x])} | x < |recs| && g.Cyclic(x) :: EnvironmentOk(recs[x])
  }

  ghost predicate Untouched(a: Rec, b: Rec) {
    b == a.(asyncParentModules := b.asyncParentModules, pendingAsyncDependencies := b.pendingAsyncDependencies)
  }

  /** Linked records move on; the others are left alone. */
  ghost predicate Within(r0: Recs, r1: Recs, linked: set<Id>) {
    && |r0| == |r1| && EvolvesAll(r0, r1)
    && forall x: Id {:trigger Untouched(r0[x], r1[x])} | x < |r0| && x !in linked :: Untouched(r0[x], r1[x])
  }

  lemma WithinGone(g: Graph, r0: Recs, r1: Recs)
    requires Within(r0, r1, Linker.Gone(g, r0))
    ensures Linker.Gone(g, r1) == Linker.Gone(g, r0)
  {
    forall x: Id ensures x in Linker.Gone(g, r1) <==> x in Linker.Gone(g, r0) {
      assert EvolvesAt(r0, r1, x);
      assert x < |r0| && x !in Linker.Gone(g, r0) ==> Untouched(r0[x], r1[x]);
    }
  }

  lemma LinkedKept(g: Graph, r0: Recs, r1: Recs)
    requires LinkedOk(g, r0) && Within(r0, r1, Linker.Gone(g, r0)) && RecordsOk(g, r1, [])
    ensures LinkedOk(g, r1)
  {
    WithinGone(g, r0, r1);
    hide Reach, Linker.SlotsResolved, OnCycle;
    forall x: Id | x < |r0|
      ensures
        && EvolvesAt(r0, r1, x)
        && RecordOk(g, x, r1[x], false)
        && (x !in Linker.Gone(g, r0) ==> Untouched(r0[x], r1[x]))
    {
    }
    forall x: Id | x < |r1| && g.Cyclic(x) ensures EnvironmentOk(r1[x]) {
      assert EnvironmentOk(r0[x]) && EvolvesAt(r0, r1, x);
      if x in Linker.Gone(g, r0) { assert Linker.StaysInstantiated(g, x, r0[x]); } else { assert Untouched(r0[x], r1[x]); }
    }
    forall x: Id | x < |r1| && g.Cyclic(x) && Linker.Past(r1[x].status) ensures Linker.StaysInstantiated(g, x, r1[x]) {
      assert EvolvesAt(r0, r1, x);
      assert x in Linker.Gone(g, r1);
      assert Linker.StaysInstantiated(g, x, r0[x]);
    }
    KeptLoads(g, r0, r1);
  }

  lemma KeptLoads(g: Graph, r0: Recs, r1: Recs)
    requires Linker.LoadsSucceeded(g, r0) && Within(r0, r1, Linker.Gone(g, r0)) && RecordsOk(g, r1, [])
    ensures Linker.LoadsSucceeded(g, r1)
  {
    WithinGone(g, r0, r1);
    hide RecordsOk;
    forall x: Id, y: Id | x < |r1| && y in g.Requested(x) && !r1[x].status.New? && g.Cyclic(y)
      ensures y < |r1| && !r1[y].status.New?
    {
      assert EvolvesAt(r0, r1, x);
      if x !in Linker.Gone(g, r0) { assert Untouched(r0[x], r1[x]); }
      assert y < |r0| && !r0[y].status.New?;
      assert EvolvesAt(r0, r1, y);
      if y !in Linker.Gone(g, r0) { assert Untouched(r0[y], r1[y]); }
    }
  }

  lemma OnwardWithin(g: Graph, st0: State, st1: State)
    requires Onward(st0, st1)
    ensures Within(st0.recs, st1.recs, Linker.Gone(g, st0.recs))
  {
    hide EvolvesAt;
    forall x: Id | x < |st0.recs| && x !in Linker.Gone(g, st0.recs) ensures Untouched(st0.recs[x], st1.recs[x]) {
      assert SameShape(st0.recs[x], st1.recs[x]);
    }
  }

  // An evaluation stays within what its target reaches.

  ghost predicate Inside(r0: Recs, r1: Recs, linked: set<Id>) {
    |r0| == |r1| && forall x: Id {:trigger Untouched(r0[x], r1[x])} | x < |r0| && x !in linked :: Untouched(r0[x], r1[x])
  }

  ghost predicate StackInside(s: seq<Id>, linked: set<Id>) {
    forall x | x in s :: x in linked
  }

  lemma InsideTrans(r0: Recs, r1: Recs, r2: Recs, linked: set<Id>)
    requires Inside(r0, r1, linked) && Inside(r1, r2, linked)
    ensures Inside(r0, r2, linked)
  {
    forall x: Id | x < |r0| && x !in linked ensures Untouched(r0[x], r2[x]) {
      assert Untouched(r0[x], r1[x]) && Untouched(r1[x], r2[x]);
    }
  }

  lemma PutInside(recs: Recs, m: Id, r: Rec, linked: set<Id>)
    requires m < |recs| && (m in linked || Untouched(recs[m], r))
    ensures Inside(recs, recs[m := r], linked)
  {
  }

  lemma InsideRefl(recs: Recs, linked: set<Id>)
    ensures Inside(recs, recs, linked)
  {
  }

  lemma {:induction false} WalkInside(w: World, st: State, s: seq<Id>, v: Id, index: int, linked: set<Id>)
    requires Closed(Imports(w.g), linked) && v in linked && StackInside(s, linked)
    ensures var r := InnerModuleEvaluation(w, st, s, v, index); Inside(st.recs, r.st.recs, linked) && StackInside(r.stack, linked)
    decreases Unvisited(st), 0, 1
  {
    InsideRefl(st.recs, linked);
    if !w.g.Cyclic(v) || v >= |st.recs| {
      hide Inside;
      if v < |st.recs| { PutInside(st.recs, v, EvaluateSynthetic(w, st, v).0.recs[v], linked); }
      assert v < |st.recs| ==> EvaluateSynthetic(w, st, v).0.recs == st.recs[v := EvaluateSynthetic(w, st, v).0.recs[v]];
    } else if !Visited(st.recs[v].status) {
      FreshUnfolds(w, st, s, v, index);
      var st1 := Put(st, v, Entered(st.recs[v], index));
      PutInside(st.recs, v, st1.recs[v], linked);
      hide InnerModuleEvaluation, EvaluateRequests, FinishCall, Unvisited, Inside;
      var looped := EvaluateRequests(w, st1, s + [v], v, 0, index + 1);
      LoopInside(w, st1, s + [v], v, 0, index + 1, linked);
      InsideTrans(st.recs, st1.recs, looped.st.recs, linked);
      if looped.thrown.None? {
        FinishInside(w, looped.st, looped.stack, v, looped.index, linked);
        InsideTrans(st.recs, looped.st.recs, FinishCall(w, looped.st, looped.stack, v, looped.index).st.recs, linked);
      }
    } else {
      hide Inside, EvaluateRequests, FinishCall;
    }
  }

  lemma {:induction false} LoopInside(w: World, st: State, s: seq<Id>, m: Id, i: nat, index: int, linked: set<Id>)
    requires Closed(Imports(w.g), linked) && m in linked && StackInside(s, linked)
    ensures var r := EvaluateRequests(w, st, s, m, i, index); Inside(st.recs, r.st.recs, linked) && StackInside(r.stack, linked)
    decreases Unvisited(st), 1, |w.g.Requested(m)| - i
  {
    InsideRefl(st.recs, linked);
    if i < |w.g.Requested(m)| {
      var v := w.g.Requested(m)[i];
      assert v in Imports(w.g)(m);
      LoopUnfolds(w, st, s, m, i, index);
      hide InnerModuleEvaluation, EvaluateRequests, AfterRequest, Unvisited, Inside;
      WalkInside(w, st, s, v, index, linked);
      var child := InnerModuleEvaluation(w, st, s, v, index);
      var (st1, thrown) := AfterRequest(w, child.st, m, v);
      if child.thrown.None? {
        LookInside(w, child.st, m, v, linked);
        InsideTrans(st.recs, child.st.recs, st1.recs, linked);
        if thrown.None? {
          LoopInside(w, st1, child.stack, m, i + 1, child.index, linked);
          InsideTrans(st.recs, st1.recs, EvaluateRequests(w, st1, child.stack, m, i + 1, child.index).st.recs, linked);
        }
      }
    }
  }

  lemma LookInside(w: World, st: State, m: Id, v: Id, linked: set<Id>)
    requires m in linked
    ensures Inside(st.recs, AfterRequest(w, st, m, v).0.recs, linked)
  {
  }

  lemma {:induction false} PopInside(st: State, s: seq<Id>, m: Id, linked: set<Id>)
    requires StackInside(s, linked)
    ensures Inside(st.recs, PopTo(st, s, m).0.recs, linked) && StackInside(PopTo(st, s, m).1, linked)
    decreases |s|
  {
    InsideRefl(st.recs, linked);
    if s != [] {
      var top := s[|s|-1];
      var st1 := Put(st, top, Popped(Get(st, top), m));
      assert top in linked && StackInside(s[..|s|-1], linked);
      assert Inside(st.recs, st1.recs, linked);
      if top != m {
        PopInside(st1, s[..|s|-1], m, linked);
        InsideTrans(st.recs, st1.recs, PopTo(st1, s[..|s|-1], m).0.recs, linked);
      }
    }
  }

  lemma FinishInside(w: World, st: State, s: seq<Id>, m: Id, index: int, linked: set<Id>)
    requires m in linked && StackInside(s, linked)
    ensures var r := FinishCall(w, st, s, m, index); Inside(st.recs, r.st.recs, linked) && StackInside(r.stack, linked)
  {
    var st1 := RunBody(w, st, m).0;
    RunInside(w, st, m, linked);
    hide RunBody, PopTo, Inside;
    PopInside(st1, s, m, linked);
    InsideTrans(st.recs, st1.recs, PopTo(st1, s, m).0.recs, linked);
  }

  lemma RunInside(w: World, st: State, m: Id, linked: set<Id>)
    requires m in linked
    ensures Inside(st.recs, RunBody(w, st, m).0.recs, linked)
  {
  }

  lemma CaughtInside(w: World, r: Walk, t: Id, linked: set<Id>)
    requires t in linked && StackInside(r.stack, linked)
    ensures Inside(r.st.recs, Caught(w, r, t).recs, linked)
  {
    var e := if r.thrown.Some? then r.thrown.value else 0;
    FailAllOk(r.st, r.stack, e);
    var st1 := FailAll(r.st, r.stack, e);
    hide FailAll;
    assert Inside(r.st.recs, st1.recs, linked);
    hide FailedAll;
    var st2 := if w.g.Cyclic(t) then st1 else Put(st1, t, Get(st1, t).(hasError := true, error := e));
    assert Inside(st1.recs, st2.recs, linked) && Inside(st2.recs, RejectCapability(st2, t, e).recs, linked);
    hide Inside, RejectCapability;
    InsideTrans(r.st.recs, st1.recs, st2.recs, linked);
    InsideTrans(r.st.recs, st2.recs, RejectCapability(st2, t, e).recs, linked);
  }

  /** Evaluate touches nothing outside what its target reaches. */
  lemma EvaluateInside(w: World, st: State, m: Id, linked: set<Id>)
    requires Closed(Imports(w.g), linked) && Target(w, st, m) in linked
    ensures Inside(st.recs, Evaluate(w, st, m).recs, linked)
  {
    EvaluateUnfolds(w, st, m);
    InsideRefl(st.recs, linked);
    hide Target, Evaluate, Caught;
    if Walks(w, st, m) {
      var t := Target(w, st, m);
      var r := Attempt(w, st, t);
      WalkInside(w, Opened(st, t), [], t, 0, linked);
      assert Inside(st.recs, Opened(st, t).recs, linked);
      CaughtInside(w, r, t, linked);
      assert Inside(r.st.recs, Returning(w, r.st, t).recs, linked);
      hide Inside, Returning, InnerModuleEvaluation;
      InsideTrans(st.recs, Opened(st, t).recs, r.st.recs, linked);
      InsideTrans(st.recs, r.st.recs, Evaluate(w, st, m).recs, linked);
    }
  }
}
