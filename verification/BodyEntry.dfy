/** The states in the middle of a step in which a body has just been entered: what the body
    sees while it runs, for it does not call the loader. */
module BodyEntry {
  import opened ModuleGraph
  import opened Reachability
  import opened Records
  import opened Evaluation
  import opened AsyncState
  import opened EvaluateCall
  import opened Wake
  import opened Moves
  import opened Runs
  import Linker
  import Descend

  // ── Between two entries ──────────────────────────────────────────────────

  ghost predicate NoneBegan(g: Graph, log: seq<Event>, log1: seq<Event>) {
    log <= log1 && forall k | |log| <= k < |log1| && log1[k].Began? :: !g.Cyclic(log1[k].m)
  }

  ghost predicate SameBody(a: Rec, b: Rec) {
    && (b.body.Unstarted? <==> a.body.Unstarted?) && b.code == a.code && b.getters == a.getters
    && (b.status.New? ==> a.status.New?) && (Linker.Past(b.status) <==> Linker.Past(a.status))
    && (Visited(a.status) ==> Visited(b.status))
  }

  /** From `st` to `st1` no body is entered, and no environment is made. */
  ghost predicate SameBodies(g: Graph, st: State, st1: State) {
    && |st.recs| == |st1.recs| && st1.envs == st.envs && NoneBegan(g, st.log, st1.log)
    && forall x: Id {:trigger SameBody(st.recs[x], st1.recs[x])} | x < |st.recs| && g.Cyclic(x) :: SameBody(st.recs[x], st1.recs[x])
  }

  lemma SameRefl(g: Graph, st: State)
    ensures SameBodies(g, st, st)
  {
  }

  lemma SameTrans(g: Graph, st: State, st1: State, st2: State)
    requires SameBodies(g, st, st1) && SameBodies(g, st1, st2)
    ensures SameBodies(g, st, st2)
  {
    forall x: Id | x < |st.recs| && g.Cyclic(x) ensures SameBody(st.recs[x], st2.recs[x]) {
      assert SameBody(st.recs[x], st1.recs[x]) && SameBody(st1.recs[x], st2.recs[x]);
    }
    forall k | |st.log| <= k < |st2.log| && st2.log[k].Began? ensures !g.Cyclic(st2.log[k].m) {
      if k < |st1.log| { assert st1.log[k] == st2.log[k]; }
    }
  }

  lemma PutSame(g: Graph, st: State, m: Id, r: Rec)
    requires m < |st.recs| ==> SameBody(st.recs[m], r)
    ensures SameBodies(g, st, Put(st, m, r))
  {
  }

  lemma NoteSame(g: Graph, st: State, e: Event)
    requires e.Began? ==> !g.Cyclic(e.m)
    ensures SameBodies(g, st, Note(st, e))
  {
  }

  // ── Entries ──────────────────────────────────────────────────────────────

  /** The body of `x` may be entered: it has been compiled, and has not run. */
  predicate MayEnterBody(g: Graph, st: State, x: Id) {
    g.Cyclic(x) && x < |st.recs| && st.recs[x].body.Unstarted? && !st.recs[x].code.NotCompiled?
  }

  /** `s` is the state in which the next body has been entered. */
  ghost predicate Enters(g: Graph, st: State, s: State) {
    exists st1: State, x: Id, body: Body :: SameBodies(g, st, st1) && MayEnterBody(g, st1, x) && !body.Unstarted? && s == Begin(st1, x, body)
  }

  /** `entered` are the states after each entry of a body between `st` and `st1`, in order. */
  ghost predicate Chained(g: Graph, st: State, entered: seq<State>, st1: State)
    decreases |entered|
  {
    if entered == [] then SameBodies(g, st, st1)
    else Enters(g, st, entered[0]) && Chained(g, entered[0], entered[1..], st1)
  }

  lemma OneEntered(g: Graph, st: State, st0: State, x: Id, body: Body, st1: State)
    requires
      && SameBodies(g, st, st0)
      && MayEnterBody(g, st0, x)
      && !body.Unstarted?
      && SameBodies(g, Begin(st0, x, body), st1)
    ensures Chained(g, st, [Begin(st0, x, body)], st1)
  {
    var s := Begin(st0, x, body);
    hide SameBodies, MayEnterBody;
    assert Enters(g, st, s) by { hide Begin; }
    assert [s][1..] == [];
  }

  lemma {:induction false} SameThenChained(g: Graph, st: State, st0: State, entered: seq<State>, st1: State)
    requires SameBodies(g, st, st0) && Chained(g, st0, entered, st1)
    ensures Chained(g, st, entered, st1)
  {
    if entered == [] {
      SameTrans(g, st, st0, st1);
    } else {
      var s: State, x: Id, body: Body :| SameBodies(g, st0, s) && MayEnterBody(g, s, x) && !body.Unstarted? && entered[0] == Begin(s, x, body);
      SameTrans(g, st, st0, s);
      hide SameBodies, MayEnterBody, Begin;
      assert Enters(g, st, entered[0]);
    }
  }

  lemma {:induction false} ChainedThen(g: Graph, st: State, one: seq<State>, st1: State, two: seq<State>, st2: State)
    requires Chained(g, st, one, st1) && Chained(g, st1, two, st2)
    ensures Chained(g, st, one + two, st2)
    decreases |one|
  {
    hide SameBodies, Enters;
    if one == [] {
      assert one + two == two;
      SameThenChained(g, st, st1, two, st2);
    } else {
      ChainedThen(g, one[0], one[1..], st1, two, st2);
      assert (one + two)[1..] == one[1..] + two;
    }
  }

  // ── The entries of a walk ────────────────────────────────────────────────

  function RunEntries(w: World, st: State, m: Id): seq<State> {
    var r := Get(st, m);
    if r.pendingAsyncDependencies > 0 || w.g.HasTLA(m) then
      var st1 := Put(st, m, r.(asyncEvaluation := true, asyncEvaluationOrder := st.asyncOrder + 1)).(asyncOrder := st.asyncOrder + 1);
      if r.pendingAsyncDependencies == 0 then [Begin(st1, m, Running)] else []
    else
      [Begin(st, m, Over)]
  }

  ghost function WalkEntries(w: World, st: State, stack: seq<Id>, m: Id, index: int): seq<State>
    decreases Unvisited(st), 0, 0
  {
    if !w.g.Cyclic(m) || m >= |st.recs| || Visited(st.recs[m].status) then []
    else
      var st1 := Put(st, m, Entered(st.recs[m], index));
      FreshUnfolds(w, st, stack, m, index);
      var looped := EvaluateRequests(w, st1, stack + [m], m, 0, index + 1);
      LoopEntries(w, st1, stack + [m], m, 0, index + 1) + if looped.thrown.Some? then [] else RunEntries(w, looped.st, m)
  }

  ghost function LoopEntries(w: World, st: State, stack: seq<Id>, m: Id, i: nat, index: int): seq<State>
    decreases Unvisited(st), 1, |w.g.Requested(m)| - i
  {
    if i >= |w.g.Requested(m)| then []
    else
      var required := w.g.Requested(m)[i];
      var child := InnerModuleEvaluation(w, st, stack, required, index);
      var (st1, thrown) := AfterRequest(w, child.st, m, required);
      LoopUnfolds(w, st, stack, m, i, index);
      WalkEntries(w, st, stack, required, index)
        + if child.thrown.Some? || thrown.Some? then [] else LoopEntries(w, st1, child.stack, m, i + 1, child.index)
  }

  /** What a walk relies on: what is linked is compiled, is closed under requests, and has
      not run unless it has been visited. */
  ghost predicate Walkable(g: Graph, st: State) {
    && |st.recs| == |g.mods| && Closed(Imports(g), Linker.Gone(g, st.recs))
    && forall x: Id {:trigger WalkableAt(st.recs[x])} | x < |st.recs| && g.Cyclic(x) :: WalkableAt(st.recs[x])
  }

  ghost predicate WalkableAt(r: Rec) {
    (Linker.Past(r.status) ==> !r.code.NotCompiled?) && (!Visited(r.status) ==> r.body.Unstarted?)
  }

  lemma SameWalkable(g: Graph, st: State, st1: State)
    requires SameBodies(g, st, st1) && Walkable(g, st)
    ensures Walkable(g, st1) && Linker.Gone(g, st1.recs) == Linker.Gone(g, st.recs)
  {
    forall x: Id | x < |st.recs| && g.Cyclic(x) ensures WalkableAt(st1.recs[x]) && SameBody(st.recs[x], st1.recs[x]) {
      assert WalkableAt(st.recs[x]) && SameBody(st.recs[x], st1.recs[x]);
    }
    assert Linker.Gone(g, st1.recs) == Linker.Gone(g, st.recs);
  }

  /** What had been visited has not been entered in between. */
  ghost predicate VisitedKept(g: Graph, st: State, st1: State) {
    && |st.recs| == |st1.recs| && Linker.Gone(g, st1.recs) == Linker.Gone(g, st.recs)
    && forall x: Id {:trigger VisitedAt(st.recs[x], st1.recs[x])} | x < |st.recs| && g.Cyclic(x) :: VisitedAt(st.recs[x], st1.recs[x])
  }

  ghost predicate VisitedAt(a: Rec, b: Rec) {
    Visited(a.status) ==> Visited(b.status) && (a.body.Unstarted? <==> b.body.Unstarted?)
  }

  lemma SameVisited(g: Graph, st: State, st1: State)
    requires SameBodies(g, st, st1)
    ensures VisitedKept(g, st, st1)
  {
    forall x: Id | x < |st.recs| && g.Cyclic(x)
      ensures VisitedAt(st.recs[x], st1.recs[x]) && SameBody(st.recs[x], st1.recs[x])
    {
      assert SameBody(st.recs[x], st1.recs[x]);
    }
    assert Linker.Gone(g, st1.recs) == Linker.Gone(g, st.recs);
  }

  lemma VisitedTrans(g: Graph, st: State, st1: State, st2: State)
    requires VisitedKept(g, st, st1) && VisitedKept(g, st1, st2)
    ensures VisitedKept(g, st, st2)
  {
    hide Linker.Gone;
    forall x: Id | x < |st.recs| && g.Cyclic(x) ensures VisitedAt(st.recs[x], st2.recs[x]) {
      assert VisitedAt(st.recs[x], st1.recs[x]) && VisitedAt(st1.recs[x], st2.recs[x]);
    }
  }

  /** What a part of a walk promises. */
  ghost predicate Walked(g: Graph, st: State, entered: seq<State>, st1: State) {
    Chained(g, st, entered, st1) && VisitedKept(g, st, st1) && Walkable(g, st1)
  }

  lemma SameWalked(g: Graph, st: State, st1: State)
    requires SameBodies(g, st, st1) && Walkable(g, st)
    ensures Walked(g, st, [], st1)
  {
    SameWalkable(g, st, st1);
    SameVisited(g, st, st1);
    hide SameBodies, VisitedKept, Walkable;
  }

  lemma WalkedThen(g: Graph, st: State, one: seq<State>, st1: State, two: seq<State>, st2: State)
    requires Walked(g, st, one, st1) && Walked(g, st1, two, st2)
    ensures Walked(g, st, one + two, st2)
  {
    hide Chained, VisitedKept, Walkable;
    ChainedThen(g, st, one, st1, two, st2);
    VisitedTrans(g, st, st1, st2);
  }

  lemma BeginWalked(g: Graph, st: State, st0: State, m: Id, body: Body, st1: State)
    requires
      && Walkable(g, st)
      && SameBodies(g, st, st0)
      && MayEnterBody(g, st0, m)
      && !body.Unstarted?
      && Visited(st0.recs[m].status)
    requires SameBodies(g, Begin(st0, m, body), st1)
    ensures Chained(g, st, [Begin(st0, m, body)], st1) && Walkable(g, st1)
    ensures |st1.recs| == |st.recs| && Linker.Gone(g, st1.recs) == Linker.Gone(g, st.recs)
    ensures forall x: Id | x < |st.recs| && g.Cyclic(x) && x != m :: VisitedAt(st.recs[x], st1.recs[x])
    ensures Visited(st1.recs[m].status)
  {
    OneEntered(g, st, st0, m, body, st1);
    SameWalkable(g, st, st0);
    var s := Begin(st0, m, body);
    assert Walkable(g, s) && Linker.Gone(g, s.recs) == Linker.Gone(g, st0.recs) by { BeginWalkable(g, st0, m, body); }
    SameWalkable(g, s, st1);
    hide Walkable, Chained, Linker.Gone, Linker.Past;
    forall x: Id | x < |st.recs| && g.Cyclic(x) && x != m ensures VisitedAt(st.recs[x], st1.recs[x]) {
      assert SameBody(st.recs[x], st0.recs[x]) && SameBody(s.recs[x], st1.recs[x]);
    }
    assert SameBody(s.recs[m], st1.recs[m]);
  }

  lemma BeginWalkable(g: Graph, st: State, m: Id, body: Body)
    requires Walkable(g, st) && m < |st.recs| && Visited(st.recs[m].status)
    ensures Walkable(g, Begin(st, m, body)) && Linker.Gone(g, Begin(st, m, body).recs) == Linker.Gone(g, st.recs)
  {
    var s := Begin(st, m, body);
    assert Linker.Gone(g, s.recs) == Linker.Gone(g, st.recs);
    forall x: Id | x < |s.recs| && g.Cyclic(x) ensures WalkableAt(s.recs[x]) { assert WalkableAt(st.recs[x]); }
  }

  ghost predicate StackVisited(g: Graph, st: State, s: seq<Id>) {
    forall x | x in s && x < |st.recs| && g.Cyclic(x) :: Visited(st.recs[x].status)
  }

  lemma StackKept(g: Graph, st: State, st1: State, s: seq<Id>)
    requires StackVisited(g, st, s) && VisitedKept(g, st, st1)
    ensures StackVisited(g, st1, s)
  {
    forall x | x in s && x < |st1.recs| && g.Cyclic(x) ensures Visited(st1.recs[x].status) {
      assert VisitedAt(st.recs[x], st1.recs[x]);
    }
  }

  lemma {:induction false} PopSame(g: Graph, st: State, s: seq<Id>, m: Id)
    requires StackVisited(g, st, s)
    ensures SameBodies(g, st, PopTo(st, s, m).0) && StackVisited(g, PopTo(st, s, m).0, PopTo(st, s, m).1)
    decreases |s|
  {
    SameRefl(g, st);
    if s != [] {
      var top, rest := s[|s|-1], s[..|s|-1];
      var st1 := Put(st, top, Popped(Get(st, top), m));
      assert top in s;
      if top < |st.recs| && !g.Cyclic(top) {
        assert SameBodies(g, st, st1);
      } else {
        PutSame(g, st, top, Popped(Get(st, top), m));
      }
      assert StackVisited(g, st1, rest);
      if top != m {
        PopSame(g, st1, rest, m);
        SameTrans(g, st, st1, PopTo(st1, rest, m).0);
      }
    }
  }

  /** What the end of a call for `m` promises. */
  ghost predicate Ended(g: Graph, st: State, entered: seq<State>, st1: State, m: Id) {
    && Chained(g, st, entered, st1) && Walkable(g, st1)
    && |st1.recs| == |st.recs| && m < |st.recs| && Linker.Gone(g, st1.recs) == Linker.Gone(g, st.recs)
    && Visited(st1.recs[m].status)
    && forall x: Id {:trigger VisitedAt(st.recs[x], st1.recs[x])} | x < |st.recs| && g.Cyclic(x) && x != m :: VisitedAt(st.recs[x], st1.recs[x])
  }

  lemma EndedThen(g: Graph, st: State, entered: seq<State>, st1: State, st2: State, m: Id)
    requires Ended(g, st, entered, st1, m) && SameBodies(g, st1, st2) && g.Cyclic(m)
    ensures Ended(g, st, entered, st2, m)
  {
    SameWalked(g, st1, st2);
    assert Chained(g, st1, [], st2);
    ChainedThen(g, st, entered, st1, [], st2);
    assert entered + [] == entered;
    hide Chained, Walkable, SameBodies, Linker.Gone;
    forall x: Id | x < |st.recs| && g.Cyclic(x) && x != m ensures VisitedAt(st.recs[x], st2.recs[x]) {
      assert VisitedAt(st.recs[x], st1.recs[x]) && VisitedAt(st1.recs[x], st2.recs[x]);
    }
    assert VisitedAt(st1.recs[m], st2.recs[m]);
  }

  /** `m` waits: its body is not entered. */
  lemma WaitsEnded(g: Graph, st: State, m: Id, st1: State)
    requires Walkable(g, st) && g.Cyclic(m) && m < |st.recs| && Visited(st.recs[m].status) && SameBodies(g, st, st1)
    ensures Ended(g, st, [], st1, m)
  {
    SameWalked(g, st, st1);
    assert SameBody(st.recs[m], st1.recs[m]);
    hide Walkable, Chained, Linker.Gone;
  }

  lemma EntersEnded(g: Graph, st: State, st0: State, m: Id, body: Body, st1: State)
    requires
      && Walkable(g, st)
      && SameBodies(g, st, st0)
      && MayEnterBody(g, st0, m)
      && !body.Unstarted?
      && Visited(st0.recs[m].status)
    requires SameBodies(g, Begin(st0, m, body), st1)
    ensures Ended(g, st, [Begin(st0, m, body)], st1, m)
  {
    BeginWalked(g, st, st0, m, body, st1);
    hide Walkable, Chained, Linker.Gone, SameBodies, VisitedAt;
  }

  function Waiter(st: State, m: Id): State {
    Put(st, m, Get(st, m).(asyncEvaluation := true, asyncEvaluationOrder := st.asyncOrder + 1)).(asyncOrder := st.asyncOrder + 1)
  }

  lemma WaiterSame(g: Graph, st: State, m: Id)
    ensures SameBodies(g, st, Waiter(st, m))
  {
  }

  lemma RunEnded(w: World, st: State, m: Id)
    requires Walkable(w.g, st) && MayEnterBody(w.g, st, m) && Visited(st.recs[m].status)
    ensures Ended(w.g, st, RunEntries(w, st, m), RunBody(w, st, m).0, m)
  {
    var g, r := w.g, st.recs[m];
    WaiterSame(g, st, m);
    SameRefl(g, st);
    if r.pendingAsyncDependencies > 0 || g.HasTLA(m) {
      var st0 := Waiter(st, m);
      assert MayEnterBody(g, st0, m) && Visited(st0.recs[m].status);
      hide SameBodies, Walkable, Ended, MayEnterBody, Begin;
      if r.pendingAsyncDependencies == 0 {
        SameRefl(g, Begin(st0, m, Running));
        EntersEnded(g, st, st0, m, Running, Begin(st0, m, Running));
      } else {
        WaitsEnded(g, st, m, st0);
      }
    } else {
      hide SameBodies, Walkable, Ended, MayEnterBody, Begin, Waiter;
      var s := Begin(st, m, Over);
      SameRefl(g, s);
      NoteSame(g, s, Completed(m));
      EntersEnded(g, st, st, m, Over, RunBody(w, st, m).0);
    }
  }

  lemma FinishEnded(w: World, st: State, s: seq<Id>, m: Id, index: int)
    requires Walkable(w.g, st) && MayEnterBody(w.g, st, m) && Visited(st.recs[m].status) && StackVisited(w.g, st, s)
    ensures var r := FinishCall(w, st, s, m, index);
      Ended(w.g, st, RunEntries(w, st, m), r.st, m) && StackVisited(w.g, r.st, r.stack)
  {
    var st1 := RunBody(w, st, m).0;
    RunEnded(w, st, m);
    hide Chained, Walkable, Linker.Gone, RunBody, RunEntries;
    assert StackVisited(w.g, st1, s) by {
      forall x | x in s && x < |st1.recs| && w.g.Cyclic(x) ensures Visited(st1.recs[x].status) {
        assert x == m || VisitedAt(st.recs[x], st1.recs[x]);
      }
    }
    PopSame(w.g, st1, s, m);
    EndedThen(w.g, st, RunEntries(w, st, m), st1, PopTo(st1, s, m).0, m);
    hide Ended, PopTo, StackVisited;
  }

  lemma RegisterSame(g: Graph, st: State, m: Id, v: Id)
    ensures SameBodies(g, st, Register(st, m, v))
  {
    var st1 := Put(st, m, Get(st, m).(pendingAsyncDependencies := Get(st, m).pendingAsyncDependencies + 1));
    PutSame(g, st, m, Get(st1, m));
    PutSame(g, st1, v, Get(st1, v).(asyncParentModules := Get(st1, v).asyncParentModules + [m]));
    SameRefl(g, st);
    hide SameBodies;
    if Get(st, v).asyncEvaluation {
      SameTrans(g, st, st1, Register(st, m, v));
    }
  }

  lemma LookSame(w: World, st: State, m: Id, v: Id)
    ensures SameBodies(w.g, st, AfterRequest(w, st, m, v).0)
  {
    var st1 := Put(st, m, Get(st, m).(dfsAncestorIndex := Min(Get(st, m).dfsAncestorIndex, Get(st, v).dfsAncestorIndex)));
    PutSame(w.g, st, m, Get(st1, m));
    SameRefl(w.g, st);
    hide SameBodies, Register;
    RegisterSame(w.g, st1, m, v);
    SameTrans(w.g, st, st1, Register(st1, m, v));
    if Get(st, v).cycleRoot.Some? { RegisterSame(w.g, st, m, Get(st, v).cycleRoot.value); }
  }

  lemma SyntheticSame(w: World, st: State, m: Id)
    requires !w.g.Cyclic(m)
    ensures SameBodies(w.g, st, EvaluateSynthetic(w, st, m).0)
  {
  }

  // ── The whole walk ───────────────────────────────────────────────────────

  ghost predicate WalkEnds(g: Graph, st: State, entered: seq<State>, r: Walk) {
    Walked(g, st, entered, r.st) && StackVisited(g, r.st, r.stack)
  }

  /** `m` is entered: it has not run, and will have been compiled when it does. */
  lemma EnterSame(g: Graph, st: State, m: Id, index: int)
    requires
      && Walkable(g, st)
      && g.Cyclic(m)
      && m < |st.recs|
      && !Visited(st.recs[m].status)
      && m in Linker.Gone(g, st.recs)
    ensures var st1 := Put(st, m, Entered(st.recs[m], index));
      SameBodies(g, st, st1) && MayEnterBody(g, st1, m) && Visited(st1.recs[m].status)
  {
    assert WalkableAt(st.recs[m]);
    PutSame(g, st, m, Entered(st.recs[m], index));
  }

  lemma StillEnterable(g: Graph, st: State, entered: seq<State>, st1: State, m: Id)
    requires
      && Walked(g, st, entered, st1)
      && MayEnterBody(g, st, m)
      && Visited(st.recs[m].status)
      && m in Linker.Gone(g, st.recs)
    ensures MayEnterBody(g, st1, m) && Visited(st1.recs[m].status) && m in Linker.Gone(g, st1.recs)
  {
    hide Chained;
    assert VisitedAt(st.recs[m], st1.recs[m]) && WalkableAt(st1.recs[m]);
  }

  lemma {:induction false} WalkChained(w: World, st: State, s: seq<Id>, m: Id, index: int)
    requires Walkable(w.g, st) && StackVisited(w.g, st, s) && m in Linker.Gone(w.g, st.recs)
    ensures WalkEnds(w.g, st, WalkEntries(w, st, s, m, index), InnerModuleEvaluation(w, st, s, m, index))
    decreases Unvisited(st), 0, 1
  {
    if w.g.Cyclic(m) && m < |st.recs| && !Visited(st.recs[m].status) {
      FreshUnfolds(w, st, s, m, index);
      FreshChained(w, st, s, m, index);
    } else {
      hide EvaluateRequests, FinishCall;
      var r := InnerModuleEvaluation(w, st, s, m, index);
      if m < |st.recs| && w.g.Cyclic(m) { SameRefl(w.g, st); } else { GoneInRange(w.g, st, m); SyntheticSame(w, st, m); }
      hide SameBodies, InnerModuleEvaluation;
      SameWalked(w.g, st, r.st);
      SameVisited(w.g, st, r.st);
      StackKept(w.g, st, r.st, s);
    }
  }

  lemma GoneInRange(g: Graph, st: State, m: Id)
    requires Walkable(g, st) && m in Linker.Gone(g, st.recs)
    ensures m < |st.recs|
  {
  }

  lemma {:induction false} FreshChained(w: World, st: State, s: seq<Id>, m: Id, index: int)
    requires Walkable(w.g, st) && StackVisited(w.g, st, s) && m in Linker.Gone(w.g, st.recs)
    requires w.g.Cyclic(m) && m < |st.recs| && !Visited(st.recs[m].status)
    ensures WalkEnds(w.g, st, WalkEntries(w, st, s, m, index), InnerModuleEvaluation(w, st, s, m, index))
    decreases Unvisited(st), 0, 0
  {
    var g, st1 := w.g, Put(st, m, Entered(st.recs[m], index));
    FreshUnfolds(w, st, s, m, index);
    var looped := EvaluateRequests(w, st1, s + [m], m, 0, index + 1);
    var entered := LoopEntries(w, st1, s + [m], m, 0, index + 1);
    EntriesUnfold(w, st, s, m, index);
    EnterSame(g, st, m, index);
    SameWalked(g, st, st1);
    SameVisited(g, st, st1);
    StackPushed(g, st, st1, s, m);
    LoopChained(w, st1, s + [m], m, 0, index + 1);
    hide *;
    LoopWalked(g, st1, entered, looped);
    FreshEnds(w, st, st1, s, m, index, entered, looped);
  }

  lemma LoopWalked(g: Graph, st: State, entered: seq<State>, looped: Walk)
    requires WalkEnds(g, st, entered, looped)
    ensures Walked(g, st, entered, looped.st) && StackVisited(g, looped.st, looped.stack)
  {
    hide Walked, StackVisited;
  }

  lemma StackPushed(g: Graph, st: State, st1: State, s: seq<Id>, m: Id)
    requires StackVisited(g, st, s) && VisitedKept(g, st, st1) && m < |st1.recs| && Visited(st1.recs[m].status)
    ensures StackVisited(g, st1, s + [m])
  {
    StackKept(g, st, st1, s);
  }

  lemma EntriesUnfold(w: World, st: State, s: seq<Id>, m: Id, index: int)
    requires w.g.Cyclic(m) && m < |st.recs| && !Visited(st.recs[m].status)
    ensures var st1 := Put(st, m, Entered(st.recs[m], index));
      var looped := EvaluateRequests(w, st1, s + [m], m, 0, index + 1);
      WalkEntries(w, st, s, m, index)
        == LoopEntries(w, st1, s + [m], m, 0, index + 1) + if looped.thrown.Some? then [] else RunEntries(w, looped.st, m)
  {
    hide EvaluateRequests, RunEntries;
  }

  /** The loop over the requests has ended; `m` runs its body, or throws what a request threw. */
  lemma FreshEnds(w: World, st: State, st1: State, s: seq<Id>, m: Id, index: int, entered: seq<State>, looped: Walk)
    requires Walked(w.g, st, [], st1) && MayEnterBody(w.g, st1, m) && Visited(st1.recs[m].status)
    requires m in Linker.Gone(w.g, st.recs) && m < |st.recs| && !Visited(st.recs[m].status)
    requires Walked(w.g, st1, entered, looped.st) && StackVisited(w.g, looped.st, looped.stack)
    requires var r := InnerModuleEvaluation(w, st, s, m, index);
      r == if looped.thrown.Some? then looped else FinishCall(w, looped.st, looped.stack, m, looped.index)
    requires WalkEntries(w, st, s, m, index) == entered + if looped.thrown.Some? then [] else RunEntries(w, looped.st, m)
    ensures WalkEnds(w.g, st, WalkEntries(w, st, s, m, index), InnerModuleEvaluation(w, st, s, m, index))
  {
    var g := w.g;
    WalkedGone(g, st, [], st1);
    StillEnterable(g, st1, entered, looped.st, m);
    WalkedThen(g, st, [], st1, entered, looped.st);
    assert [] + entered == entered;
    if looped.thrown.Some? {
      assert entered + [] == entered;
    } else {
      WalkedGone(g, st1, entered, looped.st);
      hide Walked, StackVisited, InnerModuleEvaluation, WalkEntries, RunEntries, FinishCall;
      WalkedWalkable(g, st1, entered, looped.st);
      FinishEnded(w, looped.st, looped.stack, m, looped.index);
      var r := FinishCall(w, looped.st, looped.stack, m, looped.index);
      EndedWalked(g, st, entered, looped.st, RunEntries(w, looped.st, m), r.st, m);
    }
  }

  lemma WalkedWalkable(g: Graph, st: State, entered: seq<State>, st1: State)
    requires Walked(g, st, entered, st1)
    ensures Walkable(g, st1) && Chained(g, st, entered, st1)
  {
  }

  lemma WalkedGone(g: Graph, st: State, entered: seq<State>, st1: State)
    requires Walked(g, st, entered, st1)
    ensures Linker.Gone(g, st1.recs) == Linker.Gone(g, st.recs) && |st1.recs| == |st.recs|
  {
    hide Chained, Walkable;
  }

  lemma EndedWalked(g: Graph, st: State, one: seq<State>, st1: State, two: seq<State>, st2: State, m: Id)
    requires Walked(g, st, one, st1) && Ended(g, st1, two, st2, m) && m < |st.recs| && !Visited(st.recs[m].status)
    ensures Walked(g, st, one + two, st2)
  {
    ChainedThen(g, st, one, st1, two, st2);
    hide Chained, Walkable, Linker.Gone;
    forall x: Id | x < |st.recs| && g.Cyclic(x) ensures VisitedAt(st.recs[x], st2.recs[x]) {
      if x != m { assert VisitedAt(st.recs[x], st1.recs[x]) && VisitedAt(st1.recs[x], st2.recs[x]); }
    }
  }

  lemma {:induction false} LoopChained(w: World, st: State, s: seq<Id>, m: Id, i: nat, index: int)
    requires Walkable(w.g, st) && StackVisited(w.g, st, s) && m in Linker.Gone(w.g, st.recs)
    ensures WalkEnds(w.g, st, LoopEntries(w, st, s, m, i, index), EvaluateRequests(w, st, s, m, i, index))
    decreases Unvisited(st), 1, |w.g.Requested(m)| - i
  {
    if i >= |w.g.Requested(m)| {
      SameRefl(w.g, st);
      SameWalked(w.g, st, st);
    } else {
      var g, v := w.g, w.g.Requested(m)[i];
      assert v in Linker.Gone(g, st.recs) by { assert v in Imports(g)(m); }
      LoopUnfolds(w, st, s, m, i, index);
      LoopEntriesUnfold(w, st, s, m, i, index);
      var child := InnerModuleEvaluation(w, st, s, v, index);
      var entered := WalkEntries(w, st, s, v, index);
      var (st1, thrown) := AfterRequest(w, child.st, m, v);
      WalkChained(w, st, s, v, index);
      hide *;
      LoopWalked(g, st, entered, child);
      WalkedGone(g, st, entered, child.st);
      WalkedWalkable(g, st, entered, child.st);
      if child.thrown.Some? {
        assert entered + [] == entered;
        EndsAsWalked(g, st, entered, child);
      } else {
        LookSame(w, child.st, m, v);
        SameWalked(g, child.st, st1);
        SameVisited(g, child.st, st1);
        StackKept(g, child.st, st1, child.stack);
        WalkedThen(g, st, entered, child.st, [], st1);
        assert entered + [] == entered;
        WalkedGone(g, st, entered, st1);
        WalkedWalkable(g, st, entered, st1);
        if thrown.Some? {
          EndsAsWalked(g, st, entered, Walk(st1, child.stack, child.index, thrown));
        } else {
          LoopShrinks(w, st, s, m, i, index);
          LoopChained(w, st1, child.stack, m, i + 1, child.index);
          var rest := EvaluateRequests(w, st1, child.stack, m, i + 1, child.index);
          LoopWalked(g, st1, LoopEntries(w, st1, child.stack, m, i + 1, child.index), rest);
          WalkedThen(g, st, entered, st1, LoopEntries(w, st1, child.stack, m, i + 1, child.index), rest.st);
          EndsAsWalked(g, st, entered + LoopEntries(w, st1, child.stack, m, i + 1, child.index), rest);
        }
      }
    }
  }

  lemma LoopShrinks(w: World, st: State, s: seq<Id>, m: Id, i: nat, index: int)
    requires i < |w.g.Requested(m)|
    ensures var child := InnerModuleEvaluation(w, st, s, w.g.Requested(m)[i], index);
      Unvisited(AfterRequest(w, child.st, m, w.g.Requested(m)[i]).0) <= Unvisited(st)
  {
    LoopUnfolds(w, st, s, m, i, index);
    hide InnerModuleEvaluation, AfterRequest, EvaluateRequests, Unvisited;
  }

  lemma EndsAsWalked(g: Graph, st: State, entered: seq<State>, r: Walk)
    requires Walked(g, st, entered, r.st) && StackVisited(g, r.st, r.stack)
    ensures WalkEnds(g, st, entered, r)
  {
    hide Walked, StackVisited;
  }

  lemma LoopEntriesUnfold(w: World, st: State, s: seq<Id>, m: Id, i: nat, index: int)
    requires i < |w.g.Requested(m)|
    ensures var v := w.g.Requested(m)[i];
      var child := InnerModuleEvaluation(w, st, s, v, index);
      var (st1, thrown) := AfterRequest(w, child.st, m, v);
      LoopEntries(w, st, s, m, i, index)
        == WalkEntries(w, st, s, v, index)
         + if child.thrown.Some? || thrown.Some? then [] else LoopEntries(w, st1, child.stack, m, i + 1, child.index)
  {
    hide InnerModuleEvaluation, AfterRequest;
  }

  // ── A call of evaluate ───────────────────────────────────────────────────

  ghost function EvaluateEntries(w: World, st: State, m: Id): seq<State> {
    var t := Target(w, st, m);
    if !Walks(w, st, m) then [] else WalkEntries(w, Opened(st, t), [], t, 0)
  }

  lemma {:induction false} FailAllSame(g: Graph, st: State, s: seq<Id>, e: Error)
    requires StackVisited(g, st, s)
    ensures SameBodies(g, st, FailAll(st, s, e))
    decreases |s|
  {
    SameRefl(g, st);
    if s != [] {
      var r := Get(st, s[0]).(status := Evaluated, hasError := true, error := e);
      var st1 := Put(st, s[0], r);
      if s[0] < |st.recs| && !g.Cyclic(s[0]) { assert SameBodies(g, st, st1); } else { PutSame(g, st, s[0], r); }
      assert StackVisited(g, st1, s[1..]);
      FailAllSame(g, st1, s[1..], e);
      SameTrans(g, st, st1, FailAll(st1, s[1..], e));
    }
  }

  lemma CapabilitySame(g: Graph, st: State, t: Id, e: Error)
    ensures SameBodies(g, st, ResolveCapability(st, t)) && SameBodies(g, st, RejectCapability(st, t, e))
  {
  }

  lemma CaughtSame(w: World, r: Walk, t: Id)
    requires StackVisited(w.g, r.st, r.stack)
    ensures SameBodies(w.g, r.st, Caught(w, r, t))
  {
    var g, e := w.g, if r.thrown.Some? then r.thrown.value else 0;
    FailAllSame(g, r.st, r.stack, e);
    var st1 := FailAll(r.st, r.stack, e);
    var st2 := if g.Cyclic(t) then st1 else Put(st1, t, Get(st1, t).(hasError := true, error := e));
    assert SameBodies(g, st1, st2);
    CapabilitySame(g, st2, t, e);
    hide SameBodies, RejectCapability, FailAll, StackVisited;
    SameTrans(g, r.st, st1, st2);
    SameTrans(g, r.st, st2, RejectCapability(st2, t, e));
  }

  lemma OpenedSame(g: Graph, st: State, t: Id)
    ensures SameBodies(g, st, Opened(st, t))
  {
  }

  lemma ReadyWalkable(g: Graph, st: State)
    requires Ready(g, st)
    ensures Walkable(g, st)
  {
    RestingRecords(g, st);
    hide Resting, Linker.SlotsResolved, OnCycle, Linker.LoadsSucceeded;
    assert Linker.LinkQuiet(g, st.recs);
    forall x: Id | x < |st.recs| && g.Cyclic(x) ensures WalkableAt(st.recs[x]) {
      assert RecordOk(g, x, st.recs[x], false);
      if Linker.Past(st.recs[x].status) { assert Linker.StaysInstantiated(g, x, st.recs[x]); }
    }
  }

  lemma EvaluateChained(w: World, st: State, m: Id)
    requires Walkable(w.g, st) && Target(w, st, m) in Linker.Gone(w.g, st.recs)
    ensures Chained(w.g, st, EvaluateEntries(w, st, m), Evaluate(w, st, m))
  {
    var g, t := w.g, Target(w, st, m);
    EvaluateUnfolds(w, st, m);
    SameRefl(g, st);
    OpenedSame(g, st, t);
    SameWalkable(g, st, Opened(st, t));
    if Walks(w, st, m) {
      var r := Attempt(w, st, t);
      WalkChained(w, Opened(st, t), [], t, 0);
      assert r == InnerModuleEvaluation(w, Opened(st, t), [], t, 0);
      hide *;
      var entered := WalkEntries(w, Opened(st, t), [], t, 0);
      EntriesOpen(w, st, m);
      LoopWalked(g, Opened(st, t), entered, r);
      WalkedWalkable(g, Opened(st, t), entered, r.st);
      SameThenChained(g, st, Opened(st, t), entered, r.st);
      ReturnedSame(w, st, m, r);
      ChainedThenSame(g, st, entered, r.st, Evaluate(w, st, m));
    }
  }

  lemma EntriesOpen(w: World, st: State, m: Id)
    requires Walks(w, st, m)
    ensures EvaluateEntries(w, st, m) == WalkEntries(w, Opened(st, Target(w, st, m)), [], Target(w, st, m), 0)
  {
  }

  lemma ReturnedSame(w: World, st: State, m: Id, r: Walk)
    requires Walks(w, st, m) && r == Attempt(w, st, Target(w, st, m)) && StackVisited(w.g, r.st, r.stack)
    ensures SameBodies(w.g, r.st, Evaluate(w, st, m))
  {
    var t := Target(w, st, m);
    EvaluateUnfolds(w, st, m);
    CaughtSame(w, r, t);
    CapabilitySame(w.g, r.st, t, 0);
    SameRefl(w.g, r.st);
    hide SameBodies, Attempt, Evaluate, Caught, ResolveCapability;
  }

  lemma ChainedThenSame(g: Graph, st: State, entered: seq<State>, st1: State, st2: State)
    requires Chained(g, st, entered, st1) && SameBodies(g, st1, st2)
    ensures Chained(g, st, entered, st2)
  {
    assert Chained(g, st1, [], st2);
    ChainedThen(g, st, entered, st1, [], st2);
    assert entered + [] == entered;
  }

  // ── A fulfilment ─────────────────────────────────────────────────────────

  function TurnEntries(w: World, st: State, p: Id): seq<State> {
    if Get(st, p).status.Evaluated? then [] else [Begin(st, p, if w.g.HasTLA(p) then Running else Over)]
  }

  function ReadyEntries(w: World, st: State, ps: seq<Id>): seq<State>
    decreases |ps|
  {
    if ps == [] then [] else TurnEntries(w, st, ps[0]) + ReadyEntries(w, RunReady(w, st, ps[0]), ps[1..])
  }

  function FulfilEntries(w: World, st: State, m: Id): seq<State> {
    if Get(st, m).status.Evaluated? then []
    else
      var st1 := Complete(st, m);
      var gathered := Gather(w, st1, Get(st1, m).asyncParentModules, []);
      if gathered.crashed then [] else ReadyEntries(w, gathered.st, SortByOrder(gathered.st, gathered.list))
  }

  /** Whatever waits has been compiled. */
  ghost predicate WaitingCompiled(g: Graph, st: State) {
    forall x: Id | x < |st.recs| && g.Cyclic(x) && Linker.Past(st.recs[x].status) :: !st.recs[x].code.NotCompiled?
  }

  lemma CompiledKept(g: Graph, st: State, st1: State)
    requires WaitingCompiled(g, st) && SameBodies(g, st, st1)
    ensures WaitingCompiled(g, st1)
  {
    forall x: Id | x < |st1.recs| && g.Cyclic(x) && Linker.Past(st1.recs[x].status)
      ensures !st1.recs[x].code.NotCompiled?
    {
      assert SameBody(st.recs[x], st1.recs[x]);
    }
  }

  lemma {:induction false} CompiledChained(g: Graph, st: State, entered: seq<State>, st1: State)
    requires WaitingCompiled(g, st) && Chained(g, st, entered, st1)
    ensures WaitingCompiled(g, st1)
    decreases |entered|
  {
    if entered == [] {
      CompiledKept(g, st, st1);
    } else {
      var s: State, x: Id, body: Body :| SameBodies(g, st, s) && MayEnterBody(g, s, x) && !body.Unstarted? && entered[0] == Begin(s, x, body);
      CompiledKept(g, st, s);
      CompiledChained(g, entered[0], entered[1..], st1);
    }
  }

  lemma FailedSame(g: Graph, st: State, st1: State, e: Error)
    requires FailStep(st, st1, e) && forall x: Id | Hit(st.recs, st1.recs, x) :: Waiting(st.recs, x)
    ensures SameBodies(g, st, st1)
  {
    hide RejectionLogged, FailClosed;
    forall x: Id | x < |st.recs| && g.Cyclic(x)
      ensures SameBody(st.recs[x], st1.recs[x])
    {
      assert RecFails(st.recs, st1.recs, e, x);
    }
  }

  lemma CompleteSame(g: Graph, st: State, p: Id)
    requires p < |st.recs| && Waiting(st.recs, p)
    ensures SameBodies(g, st, Complete(st, p))
  {
  }

  lemma TurnChained(w: World, st: State, queue: seq<Id>)
    requires Awake(w.g, st, queue) && queue != [] && WaitingCompiled(w.g, st)
    ensures Chained(w.g, st, TurnEntries(w, st, queue[0]), RunReady(w, st, queue[0]))
  {
    var g, p := w.g, queue[0];
    FirstFacts(g, st, queue);
    SameRefl(g, st);
    if Waiting(st.recs, p) {
      assert MayEnterBody(g, st, p);
      var s := Begin(st, p, if g.HasTLA(p) then Running else Over);
      SameRefl(g, s);
      if g.HasTLA(p) {
      } else if p in w.fails {
        ReadyHitsWait(w, st, queue);
        FailModuleOk(w, s, p, w.fails[p]);
        FailedSame(g, s, FailModule(w, s, p, w.fails[p]), w.fails[p]);
      } else {
        CompleteSame(g, s, p);
      }
      hide SameBodies, Awake, MayEnterBody, FailModule, Complete;
      OneEntered(g, st, st, p, if g.HasTLA(p) then Running else Over, RunReady(w, st, p));
    }
  }

  lemma {:induction false} ReadyChained(w: World, st: State, queue: seq<Id>)
    requires Awake(w.g, st, queue) && WaitingCompiled(w.g, st)
    ensures Chained(w.g, st, ReadyEntries(w, st, queue), RunAllReady(w, st, queue))
    decreases |queue|
  {
    hide Awake, SameBodies, Enters, RunReady, TurnEntries;
    if queue == [] {
      SameRefl(w.g, st);
    } else {
      var st1 := RunReady(w, st, queue[0]);
      TurnChained(w, st, queue);
      CompiledChained(w.g, st, TurnEntries(w, st, queue[0]), st1);
      RunReadyOk(w, st, queue);
      ReadyChained(w, st1, queue[1..]);
      ChainedThen(w.g, st, TurnEntries(w, st, queue[0]), st1, ReadyEntries(w, st1, queue[1..]), RunAllReady(w, st1, queue[1..]));
    }
  }

  lemma GatheredSame(g: Graph, st: State, st1: State)
    requires SameButPending(st.recs, st1.recs) && st1 == st.(recs := st1.recs)
    ensures SameBodies(g, st, st1)
  {
    forall x: Id | x < |st.recs| && g.Cyclic(x)
      ensures SameBody(st.recs[x], st1.recs[x])
    {
      assert SameShape(st.recs[x], st1.recs[x]);
    }
  }

  lemma OverSame(g: Graph, st: State, m: Id)
    requires m < |st.recs| && st.recs[m].body.Running?
    ensures SameBodies(g, st, Put(st, m, Get(st, m).(body := Over)))
  {
    PutSame(g, st, m, Get(st, m).(body := Over));
  }

  lemma SettledSame(g: Graph, st: State, m: Id)
    requires m < |st.recs| && st.recs[m].body.Running? && Waiting(st.recs, m)
    ensures SameBodies(g, st, Complete(Put(st, m, Get(st, m).(body := Over)), m))
  {
    var st1 := Put(st, m, Get(st, m).(body := Over));
    OverSame(g, st, m);
    CompleteSame(g, st1, m);
    SameTrans(g, st, st1, Complete(st1, m));
  }

  lemma WalkableCompiled(g: Graph, st: State)
    requires Walkable(g, st)
    ensures WaitingCompiled(g, st)
  {
    forall x: Id | x < |st.recs| && g.Cyclic(x) && Linker.Past(st.recs[x].status)
      ensures !st.recs[x].code.NotCompiled?
    {
      assert WalkableAt(st.recs[x]);
    }
  }

  lemma FulfilChained(w: World, st: State, m: Id)
    requires Ready(w.g, st) && m < |st.recs| && st.recs[m].body.Running?
    ensures Chained(w.g, st, FulfilEntries(w, Put(st, m, Get(st, m).(body := Over)), m), SettleOk(w, st, m).st)
  {
    var g, st1 := w.g, Put(st, m, Get(st, m).(body := Over));
    ReadyWalkable(g, st);
    WalkableCompiled(g, st);
    OverSame(g, st, m);
    if Waiting(st.recs, m) {
      SettleOkWakes(w, st, m);
      SettledSame(g, st, m);
      var st2 := Complete(st1, m);
      var gathered := Gather(w, st2, Parents(st.recs, m), []);
      assert Get(st2, m).asyncParentModules == Parents(st.recs, m);
      hide SameBodies, Ready, Awake, WaitingCompiled, Walkable, Gather, Complete, SameButPending;
      GatheredSame(g, st2, gathered.st);
      SameTrans(g, st, st2, gathered.st);
      CompiledKept(g, st, gathered.st);
      var queue := SortByOrder(gathered.st, gathered.list);
      ReadyChained(w, gathered.st, queue);
      SameThenChained(g, st, gathered.st, ReadyEntries(w, gathered.st, queue), RunAllReady(w, gathered.st, queue));
    } else {
      RunningSettled(g, st, m);
    }
  }

  lemma RunningSettled(g: Graph, st: State, m: Id)
    requires Ready(g, st) && m < |st.recs| && st.recs[m].body.Running? && !Waiting(st.recs, m)
    ensures st.recs[m].status.Evaluated?
  {
    RestingRecords(g, st);
    hide Resting, LinkedOk;
    assert RecordOk(g, m, st.recs[m], false);
  }

  lemma RejectSame(w: World, st: State, m: Id, e: Error)
    requires Ready(w.g, st) && m < |st.recs| && st.recs[m].body.Running?
    ensures SameBodies(w.g, st, SettleError(w, st, m, e))
  {
    var g, st1 := w.g, Put(st, m, Get(st, m).(body := Over));
    OverSame(g, st, m);
    if Waiting(st.recs, m) {
      BodyOver(g, st, m);
      hide Books, BooksBut, Quiescent, Descend.AsyncReachesTLA, LinkedOk;
      FailFrom(w, st1, m, e);
      HitWaits(g, st1.recs, FailModule(w, st1, m, e).recs, m, e);
      FailModuleOk(w, st1, m, e);
      hide SameBodies, Ready, FailModule;
      FailedSame(g, st1, FailModule(w, st1, m, e), e);
      SameTrans(g, st, st1, FailModule(w, st1, m, e));
    } else {
      RunningSettled(g, st, m);
    }
  }

  // ── The entries of a step ────────────────────────────────────────────────

  ghost function StepEntries(w: World, st: State, step: Step): seq<State> {
    match step
    case Links(_) => []
    case Calls(m) => EvaluateEntries(w, st, m)
    case Fulfils(m) => FulfilEntries(w, Put(st, m, Get(st, m).(body := Over)), m)
    case Rejects(_, _) => []
  }

  /** `StepEntries` are the states of a step after each entry of a body, in order; between
      them nothing is entered. */
  lemma StepChained(w: World, st: State, step: Step)
    requires w.g.Loaded() && Ready(w.g, st) && May(w, st, step) && !step.Links?
    ensures Chained(w.g, st, StepEntries(w, st, step), Next(w, st, step))
  {
    match step
    case Calls(m) =>
      ReadyWalkable(w.g, st);
      TargetLinked(w, st, m);
      hide Ready, Walkable, Evaluate, EvaluateEntries, Chained, Strands;
      EvaluateChained(w, st, m);
    case Fulfils(m) =>
      hide Ready, FulfilEntries, Chained, SettleOk;
      FulfilChained(w, st, m);
    case Rejects(m, e) =>
      hide Ready, SameBodies, SettleError;
      RejectSame(w, st, m, e);
  }

  lemma TargetLinked(w: World, st: State, m: Id)
    requires Ready(w.g, st) && m < |st.recs| && Linker.GraphLinked(w.g, st.recs, m)
    ensures Target(w, st, m) in Linker.Gone(w.g, st.recs)
  {
    TargetInRange(w, st, m);
    TargetReached(w, st, m);
    hide Resting, LinkedOk, Reach, Target;
  }

  // ── What a body can see ──────────────────────────────────────────────────

  /** Later, environments stay what they are, and what has been entered has been entered. */
  ghost predicate Advances(g: Graph, st: State, st1: State) {
    && |st.recs| == |st1.recs| && st.log <= st1.log
    && forall x: Id {:trigger AdvancesAt(st.recs[x], st1.recs[x])} | x < |st.recs| && g.Cyclic(x) :: AdvancesAt(st.recs[x], st1.recs[x])
  }

  ghost predicate AdvancesAt(a: Rec, b: Rec) {
    b.code == a.code && (a.getters.Some? ==> b.getters == a.getters) && (b.body.Unstarted? ==> a.body.Unstarted?)
  }

  lemma AdvancesTrans(g: Graph, st: State, st1: State, st2: State)
    requires Advances(g, st, st1) && Advances(g, st1, st2)
    ensures Advances(g, st, st2)
  {
    forall x: Id | x < |st.recs| && g.Cyclic(x) ensures AdvancesAt(st.recs[x], st2.recs[x]) {
      assert AdvancesAt(st.recs[x], st1.recs[x]) && AdvancesAt(st1.recs[x], st2.recs[x]);
    }
  }

  lemma SameAdvances(g: Graph, st: State, st1: State)
    requires SameBodies(g, st, st1)
    ensures Advances(g, st, st1)
  {
    forall x: Id | x < |st.recs| && g.Cyclic(x)
      ensures AdvancesAt(st.recs[x], st1.recs[x])
    {
      assert SameBody(st.recs[x], st1.recs[x]);
    }
  }

  /** An environment exists exactly for what was compiled with one, or has been entered, and
      the log says what has been entered. */
  ghost predicate Sees(g: Graph, st: State) {
    forall x: Id {:trigger SeesAt(st, x)} | x < |st.recs| && g.Cyclic(x) :: SeesAt(st, x)
  }

  ghost predicate SeesAt(st: State, x: Id)
    requires x < |st.recs|
  {
    (Began(x) in st.log <==> !st.recs[x].body.Unstarted?) && EnvironmentOk(st.recs[x])
  }

  lemma SameSees(g: Graph, st: State, st1: State)
    requires Sees(g, st) && SameBodies(g, st, st1)
    ensures Sees(g, st1)
  {
    forall x: Id | x < |st1.recs| && g.Cyclic(x) ensures SeesAt(st1, x) {
      assert SeesAt(st, x) && SameBody(st.recs[x], st1.recs[x]);
      if Began(x) in st1.log {
        var k :| 0 <= k < |st1.log| && st1.log[k] == Began(x);
        assert k < |st.log| && st.log[k] == Began(x);
      }
      if Began(x) in st.log { var k :| 0 <= k < |st.log| && st.log[k] == Began(x); assert st1.log[k] == Began(x); }
    }
  }

  lemma BeginSees(g: Graph, st: State, m: Id, body: Body)
    requires Sees(g, st) && MayEnterBody(g, st, m) && !body.Unstarted?
    ensures Sees(g, Begin(st, m, body)) && Advances(g, st, Begin(st, m, body))
  {
    var s := Begin(st, m, body);
    assert SeesAt(st, m);
    forall x: Id | x < |s.recs| && g.Cyclic(x) ensures SeesAt(s, x) && AdvancesAt(st.recs[x], s.recs[x]) {
      assert SeesAt(st, x);
      assert s.log[|st.log|] == Began(m);
    }
  }

  lemma EntersSees(g: Graph, st: State, s: State)
    requires Sees(g, st) && Enters(g, st, s)
    ensures Sees(g, s) && Advances(g, st, s)
  {
    var st1: State, x: Id, body: Body :| SameBodies(g, st, st1) && MayEnterBody(g, st1, x) && !body.Unstarted? && s == Begin(st1, x, body);
    hide SameBodies, MayEnterBody, Sees, Advances, Begin;
    SameSees(g, st, st1);
    SameAdvances(g, st, st1);
    BeginSees(g, st1, x, body);
    AdvancesTrans(g, st, st1, s);
  }

  lemma {:induction false} ChainedSees(g: Graph, st: State, entered: seq<State>, st1: State)
    requires Sees(g, st) && Chained(g, st, entered, st1)
    ensures Sees(g, st1) && Advances(g, st, st1)
    ensures forall i | 0 <= i < |entered| ::
        Sees(g, entered[i]) && Advances(g, st, entered[i]) && Advances(g, entered[i], st1)
    decreases |entered|
  {
    hide SameBodies, Enters, Sees, Advances;
    if entered == [] {
      SameSees(g, st, st1);
      SameAdvances(g, st, st1);
    } else {
      var s, rest := entered[0], entered[1..];
      EntersSees(g, st, s);
      ChainedSees(g, s, rest, st1);
      AdvancesTrans(g, st, s, st1);
      forall i | 0 <= i < |entered|
        ensures Sees(g, entered[i]) && Advances(g, st, entered[i]) && Advances(g, entered[i], st1)
      {
        if i > 0 {
          assert entered[i] == rest[i - 1];
          AdvancesTrans(g, st, s, entered[i]);
        }
      }
    }
  }

  /** Every entry of a body that a step logs is in the list, with the log up to it. */
  lemma {:induction false} EntriesExact(g: Graph, st: State, entered: seq<State>, st1: State, k: nat) returns (i: nat)
    requires Sees(g, st) && Chained(g, st, entered, st1)
    requires |st.log| <= k < |st1.log| && st1.log[k].Began? && g.Cyclic(st1.log[k].m)
    ensures i < |entered| && entered[i].log == st1.log[..k + 1]
    decreases |entered|
  {
    if entered == [] {
      assert false;
    } else {
      var s := entered[0];
      var st0: State, x: Id, body: Body :| SameBodies(g, st, st0) && MayEnterBody(g, st0, x) && !body.Unstarted? && s == Begin(st0, x, body);
      EntersSees(g, st, s);
      ChainedSees(g, s, entered[1..], st1);
      assert s.log == st0.log + [Began(x)] && s.log <= st1.log;
      if k < |s.log| {
        i := 0;
        assert s.log[k] == st1.log[k];
        assert NoneBegan(g, st.log, st0.log);
        assert k == |st0.log|;
      } else {
        var j := EntriesExact(g, s, entered[1..], st1, k);
        i := j + 1;
      }
    }
  }

  lemma {:induction false} LoggedIsCounted(log: seq<Event>, e: Event)
    requires e in log
    ensures EventCount(log, e) > 0
  {
    if log[|log|-1] != e {
      var i :| 0 <= i < |log| && log[i] == e;
      assert log[..|log|-1][i] == e;
      LoggedIsCounted(log[..|log|-1], e);
    }
  }

  lemma ReadySees(g: Graph, st: State)
    requires Ready(g, st)
    ensures Sees(g, st)
  {
    forall x: Id | x < |st.recs| && g.Cyclic(x) ensures SeesAt(st, x) {
      assert LoggedAt(g, st, None, x) by { hide Quiescent, LinkedOk; }
      hide Resting, Linker.LinkQuiet;
      assert EnvironmentOk(st.recs[x]);
      if Began(x) in st.log { LoggedIsCounted(st.log, Began(x)); }
      if EventCount(st.log, Began(x)) > 0 { CountedIsLogged(st.log, Began(x)); }
    }
  }

  /** A state the loader can be observed in between two steps, or in the middle of the step
      that follows, when a body has just been entered and runs. */
  ghost predicate Observed(w: World, st: State, s: State) {
    s == st || exists step: Step :: May(w, st, step) && s in StepEntries(w, st, step)
  }

  lemma ObservedSees(w: World, st: State, s: State)
    requires w.g.Loaded() && Ready(w.g, st) && Observed(w, st, s)
    ensures Sees(w.g, s) && Advances(w.g, st, s)
  {
    ReadySees(w.g, st);
    SameRefl(w.g, st);
    SameAdvances(w.g, st, st);
    if s != st {
      var step: Step :| May(w, st, step) && s in StepEntries(w, st, step);
      hide Ready, Sees, Advances, May;
      StepChained(w, st, step);
      ChainedSees(w.g, st, StepEntries(w, st, step), Next(w, st, step));
    }
  }
}
