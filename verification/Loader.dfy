/** Loading a module graph: every request is resolved, or the load fails half way. */
module Loader {
  import opened ModuleGraph
  import opened Reachability
  import opened Records
  import opened Evaluation
  import opened AsyncState
  import opened Descend
  import opened EvaluateCall
  import opened Moves
  import Linker

  /** What a load may do to the records: some that `m` reaches leave `new` for `unlinked`. */
  ghost predicate LoadStep(g: Graph, missing: set<Id>, a: Rec, b: Rec, m: Id, x: Id) {
    b == a || (x !in missing && a.status.New? && g.Cyclic(x) && b == a.(status := Unlinked) && Reach(Imports(g), m, x))
  }

  ghost predicate LoadedBy(g: Graph, missing: set<Id>, r0: Recs, r1: Recs, m: Id) {
    |r0| == |r1| && forall x: Id {:trigger LoadStep(g, missing, r0[x], r1[x], m, x)} | x < |r0| :: LoadStep(g, missing, r0[x], r1[x], m, x)
  }

  ghost predicate Left(recs: Recs, x: Id) {
    x < |recs| && !recs[x].status.New?
  }

  /** Whatever has left `new`, but for the calls in progress, has had its requests loaded. */
  ghost predicate LoadsBut(g: Graph, recs: Recs, gray: set<Id>) {
    forall x: Id, y: Id | Left(recs, x) && x !in gray && y in g.Requested(x) && g.Cyclic(y) :: Left(recs, y)
  }

  ghost function News(recs: Recs): set<Id> {
    set x | x in IdsBelow(|recs|) && recs[x].status.New?
  }

  /** A module below `m` whose requests do not resolve: either it is `m` and nothing has
      changed, or a module that requests it has been marked as loaded. */
  ghost predicate Broken(g: Graph, r0: Recs, r1: Recs, missing: set<Id>, m: Id) {
    || (m in missing && g.Cyclic(m) && r0 == r1 && !Left(r1, m))
    || exists u: Id, z: Id :: Left(r1, u) && z in g.Requested(u) && g.Cyclic(z) && z in missing && !Left(r1, z)
  }

  /** Whatever is still to be loaded below `m` has requests that resolve. */
  ghost predicate RequestsResolve(g: Graph, recs: Recs, missing: set<Id>, m: Id) {
    forall x: Id | Reach(Imports(g), m, x) && g.Cyclic(x) && x in missing :: Left(recs, x)
  }

  lemma LoadedTrans(g: Graph, missing: set<Id>, r0: Recs, r1: Recs, r2: Recs, m: Id, v: Id)
    requires LoadedBy(g, missing, r0, r1, m) && LoadedBy(g, missing, r1, r2, v) && v in g.Requested(m)
    ensures LoadedBy(g, missing, r0, r2, m)
    ensures forall x: Id | Left(r0, x) :: Left(r2, x)
  {
    hide Reach;
    forall x: Id | x < |r0| ensures LoadStep(g, missing, r0[x], r2[x], m, x) {
      assert LoadStep(g, missing, r0[x], r1[x], m, x) && LoadStep(g, missing, r1[x], r2[x], v, x);
      assert v in Imports(g)(m);
      if Reach(Imports(g), v, x) { ReachStep(Imports(g), m, v, x); }
    }
    assert forall x: Id | x < |r0| :: LoadStep(g, missing, r0[x], r2[x], m, x);
  }

  lemma LoadedLeft(g: Graph, missing: set<Id>, r0: Recs, r1: Recs, m: Id)
    requires LoadedBy(g, missing, r0, r1, m)
    ensures forall x: Id | Left(r0, x) :: Left(r1, x)
    ensures News(r1) <= News(r0)
  {
    hide Reach;
    assert forall x: Id | x < |r0| :: LoadStep(g, missing, r0[x], r1[x], m, x);
  }

  /** loadGraph, where the requests of the modules in `missing` do not resolve. */
  method LoadGraphFrom(r: Registry, missing: set<Id>, m: Id, ghost gray: set<Id>) returns (ok: bool)
    requires r.Valid() && m < |r.records| && LoadsBut(r.g, r.st.recs, gray)
    modifies r`st, r.records
    decreases News(r.st.recs), 0
    ensures r.Valid() && r.st == old(r.st).(recs := r.st.recs) && LoadedBy(r.g, missing, old(r.st.recs), r.st.recs, m)
    ensures ok ==> LoadsBut(r.g, r.st.recs, gray) && (r.g.Cyclic(m) ==> Left(r.st.recs, m))
    ensures !ok ==> Broken(r.g, old(r.st.recs), r.st.recs, missing, m)
  {
    ghost var g, r0 := r.g, r.st.recs;
    ok := true;
    hide Reach, LoadedBy, News, LoadsBut, Registry.Valid;
    NothingLoaded(g, missing, r0, m);
    var status := r.StatusOf(m);
    if !r.g.Cyclic(m) || !status.New? { return; }
    if m in missing { return false; }
    r.SetStatus(m, Unlinked);
    MarkedLoad(g, missing, r0, m, gray);
    ok := LoadRequests(r, missing, m, gray, r0);
  }

  /** The loop over the requests of `m`. */
  method LoadRequests(r: Registry, missing: set<Id>, m: Id, ghost gray: set<Id>, ghost r0: Recs) returns (ok: bool)
    requires r.Valid() && m < |r.records| && r.g.Cyclic(m)
    requires LoadedBy(r.g, missing, r0, r.st.recs, m) && LoadsBut(r.g, r.st.recs, gray + {m}) && Left(r.st.recs, m)
    modifies r`st, r.records
    decreases News(r.st.recs), 2
    ensures r.Valid() && r.st == old(r.st).(recs := r.st.recs) && LoadedBy(r.g, missing, r0, r.st.recs, m)
    ensures ok ==> LoadsBut(r.g, r.st.recs, gray) && Left(r.st.recs, m)
    ensures !ok ==> Broken(r.g, r0, r.st.recs, missing, m)
  {
    hide Reach, LoadedBy, News, LoadsBut, Broken, Registry.Valid;
    ok := true;
    var i := 0;
    while i < |r.g.mods[m].requested|
      invariant 0 <= i <= |r.g.mods[m].requested| && r.Valid() && ok
      invariant
        && r.st == old(r.st).(recs := r.st.recs)
        && LoadedBy(r.g, missing, r0, r.st.recs, m)
        && News(r.st.recs) <= News(old(r.st.recs))
      invariant LoadsBut(r.g, r.st.recs, gray + {m}) && Left(r.st.recs, m)
      invariant forall j | 0 <= j < i && r.g.Cyclic(r.g.Requested(m)[j]) :: Left(r.st.recs, r.g.Requested(m)[j])
    {
      ok := LoadRequest(r, missing, m, i, gray, r0);
      if !ok { return; }
      i := i + 1;
    }
    AllLoaded(r.g, r.st.recs, gray, m);
  }

  lemma NothingLoaded(g: Graph, missing: set<Id>, recs: Recs, m: Id)
    ensures LoadedBy(g, missing, recs, recs, m)
  {
  }

  /** Load the `i`-th request of `m`. */
  method LoadRequest(r: Registry, missing: set<Id>, m: Id, i: nat, ghost gray: set<Id>, ghost r0: Recs)
    returns (ok: bool)
    requires r.Valid() && m < |r.records| && r.g.Cyclic(m) && i < |r.g.mods[m].requested|
    requires LoadedBy(r.g, missing, r0, r.st.recs, m) && LoadsBut(r.g, r.st.recs, gray + {m}) && Left(r.st.recs, m)
    modifies r`st, r.records
    decreases News(r.st.recs), 1
    ensures r.Valid() && r.st == old(r.st).(recs := r.st.recs) && LoadedBy(r.g, missing, r0, r.st.recs, m)
    ensures News(r.st.recs) <= News(old(r.st.recs)) && forall x: Id | Left(old(r.st.recs), x) :: Left(r.st.recs, x)
    ensures ok ==>
        LoadsBut(r.g, r.st.recs, gray + {m}) && (r.g.Cyclic(r.g.Requested(m)[i]) ==> Left(r.st.recs, r.g.Requested(m)[i]))
    ensures !ok ==> Broken(r.g, r0, r.st.recs, missing, m)
  {
    hide Reach, LoadedBy, News, LoadsBut, Registry.Valid;
    ghost var g, r1 := r.g, r.st.recs;
    var v := r.g.mods[m].requested[i];
    assert v == g.Requested(m)[i];
    RequestedInRange(g, m, v);
    ok := LoadGraphFrom(r, missing, v, gray + {m});
    LoadedLeft(g, missing, r1, r.st.recs, v);
    LoadedTrans(g, missing, r0, r1, r.st.recs, m, v);
    if !ok { BrokenAbove(g, r0, r1, r.st.recs, missing, m, v); }
  }

  lemma BrokenAbove(g: Graph, r0: Recs, r1: Recs, r2: Recs, missing: set<Id>, m: Id, v: Id)
    requires Broken(g, r1, r2, missing, v) && v in g.Requested(m) && Left(r1, m)
    ensures Broken(g, r0, r2, missing, m)
  {
  }

  lemma MarkedLoad(g: Graph, missing: set<Id>, r0: Recs, m: Id, gray: set<Id>)
    requires m < |r0| && m !in missing && g.Cyclic(m) && r0[m].status.New? && LoadsBut(g, r0, gray)
    ensures var r1 := r0[m := r0[m].(status := Unlinked)];
      LoadedBy(g, missing, r0, r1, m) && News(r1) < News(r0) && LoadsBut(g, r1, gray + {m}) && Left(r1, m)
  {
    hide Reach;
    ReachRefl(Imports(g), m);
    var r1 := r0[m := r0[m].(status := Unlinked)];
    assert m in News(r0) && m !in News(r1);
  }

  lemma AllLoaded(g: Graph, recs: Recs, gray: set<Id>, m: Id)
    requires LoadsBut(g, recs, gray + {m})
    requires forall j | 0 <= j < |g.Requested(m)| && g.Cyclic(g.Requested(m)[j]) :: Left(recs, g.Requested(m)[j])
    ensures LoadsBut(g, recs, gray)
  {
    forall x: Id, y: Id | Left(recs, x) && x !in gray && y in g.Requested(x) && g.Cyclic(y) ensures Left(recs, y) {
      if x == m { var j :| 0 <= j < |g.Requested(m)| && g.Requested(m)[j] == y; }
    }
  }

  /** `loadGraph(m)` succeeds exactly when the requests of all it has to load resolve. On
      success everything `m` reaches is loaded; on failure H1 is lost, unless the requests
      of `m` itself do not resolve and nothing has changed. */
  method LoadGraph(r: Registry, missing: set<Id>, m: Id) returns (ok: bool)
    requires r.Valid() && m < |r.records| && LinkedOk(r.g, r.st.recs)
    modifies r`st, r.records
    ensures r.Valid() && r.st == old(r.st).(recs := r.st.recs) && LoadedBy(r.g, missing, old(r.st.recs), r.st.recs, m)
    ensures ok <==> RequestsResolve(r.g, old(r.st.recs), missing, m)
    ensures ok ==>
        LinkedOk(r.g, r.st.recs) && forall x: Id | Reach(Imports(r.g), m, x) && r.g.Cyclic(x) :: Left(r.st.recs, x)
    ensures Linker.LoadsSucceeded(r.g, r.st.recs) <==> ok || r.st.recs == old(r.st.recs)
  {
    ghost var r0 := r.st.recs;
    LoadsAtRest(r.g, r0);
    ok := LoadGraphFrom(r, missing, m, {});
    if ok {
      LoadKeepsLinked(r.g, missing, r0, r.st.recs, m);
      LeftBelow(r.g, r.st.recs, m);
      LoadedResolve(r.g, missing, r0, r.st.recs, m);
    } else {
      BrokenBelow(r.g, missing, r0, r.st.recs, m);
      BrokenLoads(r.g, r0, r.st.recs, missing, m);
    }
  }

  lemma LoadsAtRest(g: Graph, recs: Recs)
    requires LinkedOk(g, recs)
    ensures LoadsBut(g, recs, {})
    ensures Linker.LoadsSucceeded(g, recs)
  {
  }

  lemma LoadKeepsLinked(g: Graph, missing: set<Id>, r0: Recs, r1: Recs, m: Id)
    requires LinkedOk(g, r0) && LoadedBy(g, missing, r0, r1, m) && LoadsBut(g, r1, {})
    ensures LinkedOk(g, r1)
  {
    hide Reach, Linker.SlotsResolved, OnCycle;
    assert forall x: Id | x < |r0| :: LoadStep(g, missing, r0[x], r1[x], m, x);
    assert Linker.Gone(g, r1) == Linker.Gone(g, r0);
    forall x: Id | x < |r1| && g.Cyclic(x)
      ensures EnvironmentOk(r1[x])
    {
      assert EnvironmentOk(r0[x]) && LoadStep(g, missing, r0[x], r1[x], m, x);
    }
    forall x: Id | x < |r1| && g.Cyclic(x) && Linker.Past(r1[x].status) ensures Linker.StaysInstantiated(g, x, r1[x]) {
      assert LoadStep(g, missing, r0[x], r1[x], m, x);
      assert Linker.StaysInstantiated(g, x, r0[x]);
    }
    assert forall x: Id | x < |r0| && g.Cyclic(x) :: EnvironmentOk(r0[x]);
  }

  lemma LeftBelow(g: Graph, recs: Recs, m: Id)
    requires g.Loaded() && LoadsBut(g, recs, {}) && |recs| == |g.mods| && (g.Cyclic(m) ==> Left(recs, m))
    ensures forall x: Id | Reach(Imports(g), m, x) && g.Cyclic(x) :: Left(recs, x)
  {
    var s := set x | x in IdsBelow(|recs|) && (g.Cyclic(x) ==> Left(recs, x));
    assert Closed(Imports(g), s) by {
      forall x, y | x in s && y in Imports(g)(x) ensures y in s { RequestedInRange(g, x, y); }
    }
    forall x: Id | Reach(Imports(g), m, x) && g.Cyclic(x) ensures Left(recs, x) {
      if m < |recs| { ClosedReach(Imports(g), s, m, x); } else { ReachFromSink(Imports(g), m, x); }
    }
  }

  lemma LoadedResolve(g: Graph, missing: set<Id>, r0: Recs, r1: Recs, m: Id)
    requires LoadedBy(g, missing, r0, r1, m)
    requires forall x: Id | Reach(Imports(g), m, x) && g.Cyclic(x) :: Left(r1, x)
    ensures RequestsResolve(g, r0, missing, m)
  {
    hide Reach;
    forall x: Id | Reach(Imports(g), m, x) && g.Cyclic(x) && x in missing ensures Left(r0, x) {
      assert Left(r1, x) && LoadStep(g, missing, r0[x], r1[x], m, x);
    }
  }

  lemma BrokenBelow(g: Graph, missing: set<Id>, r0: Recs, r1: Recs, m: Id)
    requires LoadedBy(g, missing, r0, r1, m) && Broken(g, r0, r1, missing, m) && LoadsBut(g, r0, {})
    ensures !RequestsResolve(g, r0, missing, m)
  {
    ReachRefl(Imports(g), m);
    hide Reach;
    if !(m in missing && g.Cyclic(m) && r0 == r1 && !Left(r1, m)) {
      var u: Id, z: Id :| Left(r1, u) && z in g.Requested(u) && g.Cyclic(z) && z in missing && !Left(r1, z);
      assert LoadStep(g, missing, r0[u], r1[u], m, u);
      LoadedLeft(g, missing, r0, r1, m);
      if Left(r0, u) { assert false; }
      assert z in Imports(g)(u);
      ReachEdge(Imports(g), u, z);
      ReachTrans(Imports(g), m, u, z);
    }
  }

  lemma BrokenLoads(g: Graph, r0: Recs, r1: Recs, missing: set<Id>, m: Id)
    requires Broken(g, r0, r1, missing, m) && Linker.LoadsSucceeded(g, r0)
    ensures Linker.LoadsSucceeded(g, r1) <==> r1 == r0
  {
  }

  // ── Loading and linking are steps of a run ───────────────────────────────

  lemma LoadPrepares(g: Graph, missing: set<Id>, st: State, st1: State, m: Id)
    requires LoadedBy(g, missing, st.recs, st1.recs, m) && st1 == st.(recs := st1.recs)
    ensures Prepares(g, st, st1)
  {
    hide Reach;
    forall x: Id | x < |st.recs|
      ensures PreparedAt(g, st.recs[x], st1.recs[x], x) && st1.recs[x].getters == st.recs[x].getters
    {
      assert LoadStep(g, missing, st.recs[x], st1.recs[x], m, x);
    }
    NewNone(st, st1);
    hide NewEnvironments;
  }

  lemma LinkPrepares(g: Graph, st: State, st1: State, m: Id)
    requires LinkedOk(g, st.recs) && Linker.LinkQuiet(g, st1.recs) && Linker.Changed(g, st.recs, st1.recs, m)
    requires st1.asyncOrder == st.asyncOrder && st1.log == st.log && NewEnvironments(st, st1)
    ensures Prepares(g, st, st1)
  {
    hide NewEnvironments, Reach, Linker.SlotsResolved, OnCycle, Linker.Instantiated, Linker.LoadsSucceeded, Closed;
    forall x: Id | x < |st.recs| ensures PreparedAt(g, st.recs[x], st1.recs[x], x) {
      assert Linker.RecordStep(g, st.recs[x], st1.recs[x], m, x);
    }
  }

  lemma LinkKeepsLinked(g: Graph, r0: Recs, r1: Recs, m: Id)
    requires LinkedOk(g, r0) && Linker.LinkQuiet(g, r1) && Linker.Changed(g, r0, r1, m)
    requires forall x: Id | x < |r0| && r0[x].status.Unlinked? :: r0[x].body.Unstarted?
    ensures LinkedOk(g, r1)
  {
    hide Reach, Linker.SlotsResolved, OnCycle, Linker.LoadsSucceeded, Closed;
    forall x: Id | x < |r1| && g.Cyclic(x) ensures EnvironmentOk(r1[x]) {
      assert EnvironmentOk(r0[x]) && Linker.RecordStep(g, r0[x], r1[x], m, x);
    }
  }
}
