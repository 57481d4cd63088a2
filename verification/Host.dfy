/** The host's calls, on the heap: load, link, evaluate, require. Each starts and ends
    with the loader between steps. */
module Host {
  import opened ModuleGraph
  import opened Reachability
  import opened Records
  import opened Exports
  import opened AsyncState
  import opened EvaluateCall
  import opened Moves
  import opened Runs
  import E = Evaluation
  import Descend
  import Evaluator
  import HostEntry
  import Linker
  import Loader

  /** The heap between two steps. */
  ghost predicate AtRest(x: Evaluator.Executor)
    reads x, x.r, x.r.records
  {
    x.r.Valid() && Evaluator.InRange(x.r.st.recs) && Ready(x.r.g, x.r.st)
  }

  method Start(g: Graph, fails: map<Id, Error>) returns (x: Evaluator.Executor)
    requires g.Loaded()
    ensures AtRest(x) && x.r.g == g && x.fails == fails && x.r.st == Initial(g)
    ensures fresh(x) && fresh(x.r) && fresh(x.r.records)
  {
    var r := new Registry(g);
    x := new Evaluator.Executor(r, fails);
    InitialReady(g);
  }

  lemma PreparedInRange(g: Graph, st: State, st1: State)
    requires Evaluator.InRange(st.recs) && Prepares(g, st, st1)
    ensures Evaluator.InRange(st1.recs)
  {
    forall x: Id | x < |st1.recs|
      ensures
        && st1.recs[x].cycleRoot == st.recs[x].cycleRoot
        && st1.recs[x].asyncParentModules == st.recs[x].asyncParentModules {
      assert PreparedAt(g, st.recs[x], st1.recs[x], x);
    }
  }

  lemma UnlinkedUnstarted(g: Graph, st: State)
    requires Resting(g, st)
    ensures forall x: Id | x < |st.recs| && st.recs[x].status.Unlinked? :: st.recs[x].body.Unstarted?
  {
    RestingRecords(g, st);
    hide Resting;
    forall x: Id | x < |st.recs| && st.recs[x].status.Unlinked?
      ensures st.recs[x].body.Unstarted?
    {
      assert RecordOk(g, x, st.recs[x], false);
    }
  }

  lemma LeftAtRoot(g: Graph, recs: Recs, m: Id)
    requires forall y: Id | Reach(Imports(g), m, y) && g.Cyclic(y) :: Loader.Left(recs, y)
    ensures g.Cyclic(m) ==> m < |recs| && !recs[m].status.New?
  {
    ReachRefl(Imports(g), m);
  }

  lemma PreparesTwice(g: Graph, st0: State, st1: State, st2: State)
    requires Prepares(g, st0, st1) && Prepares(g, st1, st2)
    ensures Prepares(g, st0, st2)
  {
    NewTrans(st0, st1, st2);
    hide NewEnvironments;
    forall x: Id | x < |st0.recs| ensures PreparedAt(g, st0.recs[x], st2.recs[x], x) {
      assert PreparedAt(g, st0.recs[x], st1.recs[x], x) && PreparedAt(g, st1.recs[x], st2.recs[x], x);
    }
  }

  datatype Prepared = Ok | LoadFailed | LinkFailed

  /** A graph with an import that does not resolve is not linked. */
  lemma UnresolvableUnlinked(g: Graph, r0: Recs, r1: Recs, m: Id)
    requires Linker.SomeUnresolvable(g, r0, m) && |r0| == |r1| && Linker.LinkQuiet(g, r1)
    ensures !Linker.GraphLinked(g, r1, m)
  {
    var x: Id :| x < |r0| && Reach(Imports(g), m, x) && g.Cyclic(x) && !Linker.Resolvable(g, x);
    hide Reach, Linker.Resolvable;
    assert Linker.Past(r1[x].status) ==> Linker.StaysInstantiated(g, x, r1[x]);
  }

  /** `loadGraph(m); link(m);`: fails to load exactly when a request below `m` does not
      resolve, and then links exactly when every import does. */
  method Prepare(x: Evaluator.Executor, missing: set<Id>, m: Id) returns (p: Prepared)
    requires AtRest(x) && m < |x.r.records|
    modifies x.r`st, x.r`envs, x.r.records
    ensures !p.LoadFailed? ==> AtRest(x) && Prepares(x.r.g, old(x.r.st), x.r.st)
    ensures x.r.st.log == old(x.r.st.log)
    ensures p.LoadFailed? <==> !Loader.RequestsResolve(x.r.g, old(x.r.st.recs), missing, m)
    ensures !p.LoadFailed? ==> (p.Ok? <==> Linker.GraphLinked(x.r.g, x.r.st.recs, m))
  {
    ghost var st0 := x.r.st;
    var loaded := Loader.LoadGraph(x.r, missing, m);
    if !loaded { return LoadFailed; }
    ghost var st1 := x.r.st;
    hide NewEnvironments, Reach, Loader.LoadedBy, Loader.RequestsResolve, LinkedOk, Resting, Prepares, Evaluator.InRange,
         Linker.GraphLinked, Linker.SomeUnresolvable;
    Loader.LoadPrepares(x.r.g, missing, st0, st1, m);
    PreparedRests(x.r.g, st0, st1);
    UnlinkedUnstarted(x.r.g, st1);
    LeftAtRoot(x.r.g, st1.recs, m);
    ghost var components;
    var linked;
    linked, components := Linker.Link(x.r, m);
    ghost var st2 := x.r.st;
    Loader.LinkPrepares(x.r.g, st1, st2, m);
    Loader.LinkKeepsLinked(x.r.g, st1.recs, st2.recs, m);
    PreparedRests(x.r.g, st1, st2);
    PreparesTwice(x.r.g, st0, st1, st2);
    PreparedInRange(x.r.g, st0, st2);
    if !linked { UnresolvableUnlinked(x.r.g, st1.recs, st2.recs, m); }
    p := if linked then Ok else LinkFailed;
  }

  /** `evaluate(m)` on a linked graph: unless the walk strands a parent, the loader is
      at rest again. The promise is the one of `t`. */
  method Call(x: Evaluator.Executor, m: Id) returns (t: Id)
    requires AtRest(x) && m < |x.r.records| && Linker.GraphLinked(x.r.g, x.r.st.recs, m)
    modifies x.r`st, x.r`envs, x.r`asyncOrder, x.r.records
    ensures x.r.st == E.Evaluate(x.World(), old(x.r.st), m) && t == E.Target(x.World(), old(x.r.st), m)
    ensures AtRest(x) <==> !Strands(x.World(), old(x.r.st), m)
  {
    ghost var w, st := x.World(), x.r.st;
    t := Evaluator.Evaluate(x, m);
    hide Reach, Resting, LinkedOk, Strands, E.Evaluate, E.Target, Evaluator.InRange, Linker.GraphLinked;
    EvaluateRests(w, st, m);
    if !Strands(w, st, m) { EvaluateLinked(w, st, m); }
  }

  /** The promise of `m`'s body fulfils, and its callback runs. */
  method Fulfil(x: Evaluator.Executor, m: Id)
    requires AtRest(x) && m < |x.r.records| && x.r.st.recs[m].body.Running?
    modifies x.r`st, x.r`envs, x.r.records
    ensures AtRest(x) && x.r.st == E.SettleOk(x.World(), old(x.r.st), m).st
  {
    ghost var w, st := x.World(), x.r.st;
    EndBody(x, m);
    var crashed := Evaluator.AsyncModuleExecutionFulfilled(x, m);
    NextReady(w, st, Fulfils(m));
    hide Resting, LinkedOk, E.Fulfil, Evaluator.InRange;
  }

  /** It rejects. */
  method Reject(x: Evaluator.Executor, m: Id, e: Error)
    requires AtRest(x) && m < |x.r.records| && x.r.st.recs[m].body.Running?
    modifies x.r`st, x.r.records
    ensures AtRest(x) && x.r.st == E.SettleError(x.World(), old(x.r.st), m, e)
  {
    ghost var w, st := x.World(), x.r.st;
    EndBody(x, m);
    Evaluator.AsyncModuleExecutionRejected(x, m, e);
    NextReady(w, st, Rejects(m, e));
    hide Resting, LinkedOk, E.FailModule, Evaluator.InRange;
  }

  method EndBody(x: Evaluator.Executor, m: Id)
    requires x.r.Valid() && Evaluator.InRange(x.r.st.recs) && m < |x.r.records|
    modifies x.r`st, x.r.records
    ensures x.r.Valid() && Evaluator.InRange(x.r.st.recs)
    ensures x.r.st == E.Put(old(x.r.st), m, E.Get(old(x.r.st), m).(body := Over))
  {
    ghost var recs := x.r.st.recs;
    hide Evaluator.InRange;
    var y := x.r.records[m];
    assert y.Value() == x.r.st.recs[m];
    y.body := Over;
    x.r.st := E.Put(x.r.st, m, E.Get(x.r.st, m).(body := Over));
    Evaluator.LowerInRange(recs, m, x.r.st.recs[m]);
  }

  // ── require(esm) ─────────────────────────────────────────────────────────

  /** What `require` hands back: the export named "module.exports", the namespace with
      `__esModule` added, or the namespace itself. */
  datatype View = ModuleExportsValue | Facade | NamespaceObject

  const MODULE_EXPORTS: Name := "module.exports"
  const ES_MODULE: Name := "__esModule"

  /** The value of an export of that name takes precedence; `__esModule` is added for a default
      export, but not where the module exports that name itself. */
  ghost predicate ViewOk(g: Graph, m: Id, view: View) {
    && (view.ModuleExportsValue? <==> Exported(g, m, MODULE_EXPORTS))
    && (view.Facade? ==> Exported(g, m, DEFAULT) && !Exported(g, m, ES_MODULE))
    && (view.NamespaceObject? ==> Exported(g, m, DEFAULT) ==> Exported(g, m, ES_MODULE))
  }

  /** The key a facade adds is not one of the namespace's own. */
  lemma FacadeAddsAKey(g: Graph, m: Id)
    requires ViewOk(g, m, Facade)
    ensures Meaning(g, Query(m, ES_MODULE)).NotFound?
  {
    hide Meaning, Exported;
    if !Meaning(g, Query(m, ES_MODULE)).NotFound? { ResolvableIsExported(g, Query(m, ES_MODULE)); }
  }

  datatype Required = NotPrepared(why: Prepared) | NeedsAwait | Throws(error: Error) | Gives(view: View)

  /** What a call of `require` that got past linking leaves. */
  ghost predicate RequireOk(g: Graph, st: State, m: Id, res: Required) {
    match res
    case NotPrepared(_) => false
    case NeedsAwait => Descend.ReachesTLA(g, m)
    case Throws(e) =>
      && !Descend.ReachesTLA(g, m)
      && (forall y: Id | Reach(Imports(g), m, y) :: !Waiting(st.recs, y))
      && var root := HostEntry.RequiredRoot(st, m);
      && root < |st.recs| && st.recs[root].hasError && st.recs[root].topLevelCapability == Capability.Rejected(e)
    case Gives(view) =>
      && !Descend.ReachesTLA(g, m)
      && (forall y: Id | Reach(Imports(g), m, y) :: !Waiting(st.recs, y) && AsyncState.Finished(g, st.recs, y))
      && ViewOk(g, m, view)
  }

  /** `requireModule` of a source text module. Nothing runs if the graph has top-level
      await; otherwise the error is thrown, or everything the module reaches has run. */
  method RequireModule(x: Evaluator.Executor, missing: set<Id>, m: Id) returns (res: Required)
    requires AtRest(x) && m < |x.r.records| && x.r.g.Cyclic(m)
    modifies x.r`st, x.r`envs, x.r`asyncOrder, x.r.records
    ensures res != NotPrepared(LoadFailed) ==> AtRest(x)
    ensures res == NotPrepared(LoadFailed) <==> !Loader.RequestsResolve(x.r.g, old(x.r.st.recs), missing, m)
    ensures res == NotPrepared(LinkFailed) ==> !Linker.GraphLinked(x.r.g, x.r.st.recs, m)
    ensures !res.NotPrepared? ==> RequireOk(x.r.g, x.r.st, m, res)
    ensures res.NotPrepared? || res.NeedsAwait? ==> x.r.st.log == old(x.r.st.log)
  {
    hide AtRest, RequireOk, Linker.GraphLinked, Loader.RequestsResolve;
    var prepared := Prepare(x, missing, m);
    if prepared.Ok? { res := RequireLinked(x, m); } else { res := NotPrepared(prepared); }
  }

  method RequireLinked(x: Evaluator.Executor, m: Id) returns (res: Required)
    requires AtRest(x) && m < |x.r.records| && x.r.g.Cyclic(m) && Linker.GraphLinked(x.r.g, x.r.st.recs, m)
    modifies x.r`st, x.r`envs, x.r`asyncOrder, x.r.records
    ensures AtRest(x) && RequireOk(x.r.g, x.r.st, m, res) && !res.NotPrepared?
    ensures res.NeedsAwait? ==> x.r.st.log == old(x.r.st.log)
  {
    hide Reach, Descend.ReachesTLA, AsyncState.Finished, Resting, LinkedOk, Strands, E.Evaluate, Evaluator.InRange,
         Linker.GraphLinked, ViewOk, Registry.Valid;
    var awaits := HostEntry.GraphHasTLA(x.r.g, m);
    if awaits { return NeedsAwait; }
    ghost var w, st := x.World(), x.r.st;
    HostEntry.NoAwaitNeverStrands(w, st, m);
    var _ := Call(x, m);
    HostEntry.RequireIsSynchronous(w, st, m);
    var hasError, error := RootError(x, m);
    if hasError { return Throws(error); }
    var view := Look(x.r.g, m);
    res := Gives(view);
  }

  /** The error of the record `require` looks at. */
  method RootError(x: Evaluator.Executor, m: Id) returns (hasError: bool, error: Error)
    requires x.r.Valid() && Evaluator.InRange(x.r.st.recs) && m < |x.r.records|
    ensures var root := HostEntry.RequiredRoot(x.r.st, m);
      root < |x.r.records| && hasError == x.r.st.recs[root].hasError && error == x.r.st.recs[root].error
  {
    assert x.r.records[m].Value() == x.r.st.recs[m];
    var root := if x.r.records[m].cycleRoot.Some? then x.r.records[m].cycleRoot.value else m;
    assert x.r.records[root].Value() == x.r.st.recs[root];
    hasError, error := x.r.records[root].hasError, x.r.records[root].error;
  }

  method Look(g: Graph, m: Id) returns (view: View)
    requires g.Loaded() && m < |g.mods|
    ensures ViewOk(g, m, view)
  {
    var names := ExportedNames(g, m);
    view := if MODULE_EXPORTS in names then ModuleExportsValue else if DEFAULT in names && ES_MODULE !in names then Facade else NamespaceObject;
  }
}
