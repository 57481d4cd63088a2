/** Evaluate, InnerModuleEvaluation and the asynchronous steps, as functions on the
    loader's state. A body is an oracle: it returns, throws (the modules `fails`
    names), or, with top-level await, hands back a promise the host settles later. */
module Evaluation {
  import opened ModuleGraph
  import opened Records

  /** The import graph and the modules whose bodies throw synchronously. */
  datatype World = World(g: Graph, fails: map<Id, Error>)

  /** What JavaScript throws when a property of `undefined` is read. */
  const TYPE_ERROR: Error := -1

  function Get(st: State, m: Id): Rec {
    if m < |st.recs| then st.recs[m] else Fresh()
  }

  function Put(st: State, m: Id, r: Rec): State {
    if m < |st.recs| then st.(recs := st.recs[m := r]) else st
  }

  function Note(st: State, e: Event): State {
    st.(log := st.log + [e])
  }

  function Min(a: int, b: int): int {
    if b < a then b else a
  }

  // ── Capabilities ─────────────────────────────────────────────────────────

  /** `m.topLevelCapability.resolve(undefined)`, when there is one; a promise that is
      already settled keeps its state. */
  function ResolveCapability(st: State, m: Id): State {
    var r := Get(st, m);
    if r.topLevelCapability.NoCapability? then st
    else Note(Put(st, m, r.(topLevelCapability := if r.topLevelCapability.Pending? then Resolved else r.topLevelCapability)),
              CapabilityResolved(m))
  }

  function RejectCapability(st: State, m: Id, e: Error): State {
    var r := Get(st, m);
    if r.topLevelCapability.NoCapability? then st
    else Note(Put(st, m, r.(topLevelCapability := if r.topLevelCapability.Pending? then Capability.Rejected(e) else r.topLevelCapability)),
              CapabilityRejected(m))
  }

  // ── Bodies ───────────────────────────────────────────────────────────────

  /** executeModule: enter the body. A module compiled as a plain function makes its
      environment now; a generator's already exists. */
  function Begin(st: State, m: Id, body: Body): State {
    var r := Get(st, m);
    if r.code.Generator? then
      Note(Put(st, m, r.(body := body)), Began(m))
    else
      Note(Put(st, m, r.(body := body, getters := Some(st.envs))).(envs := st.envs + 1), Began(m))
  }

  /** evaluateSynthetic. */
  function EvaluateSynthetic(w: World, st: State, m: Id): (State, Option<Error>) {
    var r := Get(st, m);
    if r.body.Over? then
      (st, if r.hasError then Some(r.error) else None)
    else
      var st1 := Note(Put(st, m, r.(body := Over)), Began(m));
      if m in w.fails then
        (Put(st1, m, r.(body := Over, hasError := true, error := w.fails[m])), Some(w.fails[m]))
      else
        (Note(st1, Completed(m)), None)
  }

  // ── InnerModuleEvaluation ────────────────────────────────────────────────

  datatype Walk = Walk(st: State, stack: seq<Id>, index: int, thrown: Option<Error>)

  ghost function Unvisited(st: State): set<Id> {
    set x | x in IdsBelow(|st.recs|) && !Visited(st.recs[x].status)
  }

  predicate Visited(s: Status) {
    s.Evaluating? || s.EvaluatingAsync? || s.Evaluated?
  }

  /** A state that an evaluation may lead to from `st`: no record is forgotten. */
  ghost predicate Later(st: State, st1: State) {
    |st.recs| == |st1.recs| && forall x: Id | x < |st.recs| && Visited(st.recs[x].status) :: Visited(st1.recs[x].status)
  }

  lemma LaterUnvisited(st: State, st1: State)
    requires Later(st, st1)
    ensures Unvisited(st1) <= Unvisited(st)
  {
  }

  function Entered(r: Rec, index: int): Rec {
    r.(status := Evaluating, dfsIndex := index, dfsAncestorIndex := index, pendingAsyncDependencies := 0)
  }

  /** What `m` does with a request whose evaluation has returned. */
  function AfterRequest(w: World, st: State, m: Id, required: Id): (State, Option<Error>) {
    if !w.g.Cyclic(required) then (st, None)
    else if Get(st, required).status.Evaluating? then
      var st1 := Put(st, m, Get(st, m).(dfsAncestorIndex := Min(Get(st, m).dfsAncestorIndex, Get(st, required).dfsAncestorIndex)));
      (Register(st1, m, required), None)
    else if Get(st, required).cycleRoot.None? then (st, Some(TYPE_ERROR))
    else
      var root := Get(st, required).cycleRoot.value;
      if Get(st, root).hasError then (st, Some(Get(st, root).error))
      else (Register(st, m, root), None)
  }

  /** `m` waits for `required` if that is evaluating asynchronously. */
  function Register(st: State, m: Id, required: Id): State {
    if !Get(st, required).asyncEvaluation then st
    else
      var st1 := Put(st, m, Get(st, m).(pendingAsyncDependencies := Get(st, m).pendingAsyncDependencies + 1));
      Put(st1, required, Get(st1, required).(asyncParentModules := Get(st1, required).asyncParentModules + [m]))
  }

  /** After the loop over the requests: run the body, or wait. */
  function RunBody(w: World, st: State, m: Id): (State, Option<Error>) {
    var r := Get(st, m);
    if r.pendingAsyncDependencies > 0 || w.g.HasTLA(m) then
      var st1 := Put(st, m, r.(asyncEvaluation := true, asyncEvaluationOrder := st.asyncOrder + 1)).(asyncOrder := st.asyncOrder + 1);
      (if r.pendingAsyncDependencies == 0 then Begin(st1, m, Running) else st1, None)
    else
      var st1 := Begin(st, m, Over);
      if m in w.fails then (st1, Some(w.fails[m])) else (Note(st1, Completed(m)), None)
  }

  function Popped(r: Rec, root: Id): Rec {
    r.(status := if r.asyncEvaluation then EvaluatingAsync else Evaluated, cycleRoot := Some(root))
  }

  /** Pop the stack down to `m`, giving each record its cycle root. */
  function PopTo(st: State, stack: seq<Id>, m: Id): (State, seq<Id>)
    decreases |stack|
  {
    if stack == [] then (st, [])
    else
      var top := stack[|stack|-1];
      var st1 := Put(st, top, Popped(Get(st, top), m));
      if top == m then (st1, stack[..|stack|-1]) else PopTo(st1, stack[..|stack|-1], m)
  }

  function FinishCall(w: World, st: State, stack: seq<Id>, m: Id, index: int): Walk {
    var (st1, thrown) := RunBody(w, st, m);
    if thrown.Some? then Walk(st1, stack, index, thrown)
    else if Get(st1, m).dfsAncestorIndex == Get(st1, m).dfsIndex then
      var (st2, stack2) := PopTo(st1, stack, m);
      Walk(st2, stack2, index, None)
    else Walk(st1, stack, index, None)
  }

  function InnerModuleEvaluation(w: World, st: State, stack: seq<Id>, m: Id, index: int): (r: Walk)
    ensures Later(st, r.st)
    decreases Unvisited(st), 0, 0
  {
    var r := Get(st, m);
    if !w.g.Cyclic(m) || m >= |st.recs| then
      var (st1, thrown) := EvaluateSynthetic(w, st, m);
      Walk(st1, stack, index, thrown)
    else if r.status.EvaluatingAsync? || r.status.Evaluated? then
      Walk(st, stack, index, if r.hasError then Some(r.error) else None)
    else if r.status.Evaluating? then
      Walk(st, stack, index, None)
    else
      var st1 := Put(st, m, Entered(r, index));
      assert m in Unvisited(st) && m !in Unvisited(st1);
      assert Later(st, st1);
      LaterUnvisited(st, st1);
      var looped := EvaluateRequests(w, st1, stack + [m], m, 0, index + 1);
      if looped.thrown.Some? then looped
      else
        FinishLater(w, looped.st, looped.stack, m, looped.index);
        FinishCall(w, looped.st, looped.stack, m, looped.index)
  }

  /** The loop over the requests of `m`, from the `i`-th on. */
  function EvaluateRequests(w: World, st: State, stack: seq<Id>, m: Id, i: nat, index: int): (r: Walk)
    ensures Later(st, r.st)
    decreases Unvisited(st), 1, |w.g.Requested(m)| - i
  {
    if i >= |w.g.Requested(m)| then Walk(st, stack, index, None)
    else
      var required := w.g.Requested(m)[i];
      var child := InnerModuleEvaluation(w, st, stack, required, index);
      if child.thrown.Some? then child
      else
        var (st1, thrown) := AfterRequest(w, child.st, m, required);
        AfterRequestLater(w, child.st, m, required);
        if thrown.Some? then Walk(st1, child.stack, child.index, thrown)
        else
          LaterUnvisited(st, st1);
          EvaluateRequests(w, st1, child.stack, m, i + 1, child.index)
  }

  lemma AfterRequestLater(w: World, st: State, m: Id, required: Id)
    ensures Later(st, AfterRequest(w, st, m, required).0)
  {
  }

  lemma {:induction false} PopLater(st: State, stack: seq<Id>, m: Id)
    ensures Later(st, PopTo(st, stack, m).0)
    decreases |stack|
  {
    if stack != [] {
      var top := stack[|stack|-1];
      if top != m { PopLater(Put(st, top, Popped(Get(st, top), m)), stack[..|stack|-1], m); }
    }
  }

  lemma FinishLater(w: World, st: State, stack: seq<Id>, m: Id, index: int)
    ensures Later(st, FinishCall(w, st, stack, m, index).st)
  {
    PopLater(RunBody(w, st, m).0, stack, m);
  }

  /** A call for a module that has not been visited, with its loop and its end apart. */
  lemma FreshUnfolds(w: World, st: State, s: seq<Id>, v: Id, index: int)
    requires v < |st.recs| && w.g.Cyclic(v) && !Visited(st.recs[v].status)
    ensures var st1 := Put(st, v, Entered(st.recs[v], index));
      var looped := EvaluateRequests(w, st1, s + [v], v, 0, index + 1);
      && Unvisited(st1) < Unvisited(st)
      && InnerModuleEvaluation(w, st, s, v, index)
         == if looped.thrown.Some? then looped else FinishCall(w, looped.st, looped.stack, v, looped.index)
  {
    hide FinishCall;
    var st1 := Put(st, v, Entered(st.recs[v], index));
    assert v in Unvisited(st) && v !in Unvisited(st1);
    assert Unvisited(st1) <= Unvisited(st);
  }

  /** One turn of the loop over the requests. */
  lemma LoopUnfolds(w: World, st: State, s: seq<Id>, m: Id, i: nat, index: int)
    requires i < |w.g.Requested(m)|
    ensures var child := InnerModuleEvaluation(w, st, s, w.g.Requested(m)[i], index);
      var (st1, thrown) := AfterRequest(w, child.st, m, w.g.Requested(m)[i]);
      && Unvisited(st1) <= Unvisited(st)
      && EvaluateRequests(w, st, s, m, i, index)
         == if child.thrown.Some? then child
            else if thrown.Some? then Walk(st1, child.stack, child.index, thrown)
            else EvaluateRequests(w, st1, child.stack, m, i + 1, child.index)
  {
    hide InnerModuleEvaluation, AfterRequest;
    var child := InnerModuleEvaluation(w, st, s, w.g.Requested(m)[i], index);
    AfterRequestLater(w, child.st, m, w.g.Requested(m)[i]);
    LaterUnvisited(st, child.st);
    LaterUnvisited(child.st, AfterRequest(w, child.st, m, w.g.Requested(m)[i]).0);
  }

  lemma ChildUnvisited(w: World, st: State, s: seq<Id>, v: Id, index: int)
    ensures Unvisited(InnerModuleEvaluation(w, st, s, v, index).st) <= Unvisited(st)
  {
    hide InnerModuleEvaluation;
    LaterUnvisited(st, InnerModuleEvaluation(w, st, s, v, index).st);
  }

  // ── Evaluate ─────────────────────────────────────────────────────────────

  /** The stacked records of an evaluation that threw. */
  function FailAll(st: State, stack: seq<Id>, e: Error): State
    decreases |stack|
  {
    if stack == [] then st
    else FailAll(Put(st, stack[0], Get(st, stack[0]).(status := Evaluated, hasError := true, error := e)), stack[1..], e)
  }

  /** The record whose capability a call of `evaluate(m)` hands out. */
  function Target(w: World, st: State, m: Id): Id {
    if w.g.Cyclic(m) && (Get(st, m).status.EvaluatingAsync? || Get(st, m).status.Evaluated?) && Get(st, m).cycleRoot.Some?
    then Get(st, m).cycleRoot.value else m
  }

  /** The walk that a call of `evaluate` makes for a target without a capability. */
  function Attempt(w: World, st: State, t: Id): Walk {
    InnerModuleEvaluation(w, Put(st, t, Get(st, t).(topLevelCapability := Pending)), [], t, 0)
  }

  function Evaluate(w: World, st: State, m: Id): State {
    var t := Target(w, st, m);
    if !Get(st, t).topLevelCapability.NoCapability? then st
    else
      var walk := Attempt(w, st, t);
      if walk.thrown.None? then
        if !w.g.Cyclic(t) || !Get(walk.st, t).asyncEvaluation then ResolveCapability(walk.st, t) else walk.st
      else
        var e := walk.thrown.value;
        var st1 := FailAll(walk.st, walk.stack, e);
        var st2 := if w.g.Cyclic(t) then st1 else Put(st1, t, Get(st1, t).(hasError := true, error := e));
        RejectCapability(st2, t, e)
  }

  // ── GatherAvailableAncestors ─────────────────────────────────────────────

  datatype Gathered = Gathered(st: State, list: seq<Id>, crashed: bool)

  ghost function Ungathered(st: State, list: seq<Id>): set<Id> {
    set x | x in IdsBelow(|st.recs|) && x !in list
  }

  /** The loop over the async parents `ps` of one module. */
  function Gather(w: World, st: State, ps: seq<Id>, list: seq<Id>): (r: Gathered)
    ensures |r.st.recs| == |st.recs| && list <= r.list
    decreases Ungathered(st, list), |ps|
  {
    if ps == [] then Gathered(st, list, false)
    else
      var p := ps[0];
      if p in list then Gather(w, st, ps[1..], list)
      else if Get(st, p).cycleRoot.None? then Gathered(st, list, true)
      else if Get(st, Get(st, p).cycleRoot.value).hasError then Gather(w, st, ps[1..], list)
      else
        var r := Get(st, p);
        var st1 := Put(st, p, r.(pendingAsyncDependencies := r.pendingAsyncDependencies - 1));
        if r.pendingAsyncDependencies - 1 != 0 then
          assert Ungathered(st1, list) == Ungathered(st, list);
          Gather(w, st1, ps[1..], list)
        else
          var list1 := list + [p];
          assert p in Ungathered(st, list) && p !in Ungathered(st1, list1);
          assert Ungathered(st1, list1) <= Ungathered(st, list);
          if w.g.HasTLA(p) then Gather(w, st1, ps[1..], list1)
          else
            var inner := Gather(w, st1, r.asyncParentModules, list1);
            if inner.crashed then inner
            else
              assert Ungathered(inner.st, inner.list) <= Ungathered(st1, list1);
              Gather(w, inner.st, ps[1..], inner.list)
  }

  // ── AsyncModuleExecutionRejected ─────────────────────────────────────────

  ghost function Unsettled(st: State): set<Id> {
    set x | x in IdsBelow(|st.recs|) && !st.recs[x].status.Evaluated?
  }

  ghost predicate SettledKept(st: State, st1: State) {
    |st.recs| == |st1.recs| && forall x: Id | x < |st.recs| && st.recs[x].status.Evaluated? :: st1.recs[x].status.Evaluated?
  }

  lemma SettledUnsettled(st: State, st1: State)
    requires SettledKept(st, st1)
    ensures Unsettled(st1) <= Unsettled(st)
  {
  }

  function MarkFailed(st: State, m: Id, e: Error): State {
    Put(st, m, Get(st, m).(hasError := true, error := e, status := Evaluated))
  }

  /** asyncModuleExecutionRejected. */
  function FailModule(w: World, st: State, m: Id, e: Error): (r: State)
    ensures SettledKept(st, r)
    decreases Unsettled(st), 0
  {
    if m >= |st.recs| || Get(st, m).status.Evaluated? then st
    else
      var st1 := MarkFailed(st, m, e);
      assert m in Unsettled(st) && m !in Unsettled(st1);
      assert SettledKept(st, st1);
      SettledUnsettled(st, st1);
      RejectCapability(FailParents(w, st1, Get(st, m).asyncParentModules, e), m, e)
  }

  function FailParents(w: World, st: State, ps: seq<Id>, e: Error): (r: State)
    ensures SettledKept(st, r)
    decreases Unsettled(st), |ps| + 1
  {
    if ps == [] then st
    else
      var st1 := FailModule(w, st, ps[0], e);
      SettledUnsettled(st, st1);
      FailParents(w, st1, ps[1..], e)
  }

  // ── AsyncModuleExecutionFulfilled ────────────────────────────────────────

  function Complete(st: State, m: Id): State {
    ResolveCapability(Note(Put(st, m, Get(st, m).(asyncEvaluation := false, status := Evaluated)), Completed(m)), m)
  }

  function InsertByOrder(st: State, s: seq<Id>, m: Id): seq<Id> {
    if s == [] then [m]
    else if Get(st, s[0]).asyncEvaluationOrder <= Get(st, m).asyncEvaluationOrder then [s[0]] + InsertByOrder(st, s[1..], m)
    else [m] + s
  }

  /** `execList.sort((a, b) => a.asyncEvaluationOrder - b.asyncEvaluationOrder)`, a stable sort. */
  function SortByOrder(st: State, s: seq<Id>): seq<Id> {
    if s == [] then [] else InsertByOrder(st, SortByOrder(st, s[..|s|-1]), s[|s|-1])
  }

  /** Run one ancestor that has nothing left to wait for. */
  function RunReady(w: World, st: State, p: Id): State {
    if Get(st, p).status.Evaluated? then st
    else if w.g.HasTLA(p) then Begin(st, p, Running)
    else
      var st1 := Begin(st, p, Over);
      if p in w.fails then FailModule(w, st1, p, w.fails[p]) else Complete(st1, p)
  }

  function RunAllReady(w: World, st: State, ps: seq<Id>): State
    decreases |ps|
  {
    if ps == [] then st else RunAllReady(w, RunReady(w, st, ps[0]), ps[1..])
  }

  datatype Outcome = Outcome(st: State, crashed: bool)

  /** asyncModuleExecutionFulfilled; `crashed` is a TypeError escaping from the ancestor walk. */
  function Fulfil(w: World, st: State, m: Id): Outcome {
    if Get(st, m).status.Evaluated? then Outcome(st, false)
    else
      var st1 := Complete(st, m);
      var gathered := Gather(w, st1, Get(st1, m).asyncParentModules, []);
      if gathered.crashed then Outcome(gathered.st, true)
      else Outcome(RunAllReady(w, gathered.st, SortByOrder(gathered.st, gathered.list)), false)
  }

  // ── The host's steps ─────────────────────────────────────────────────────

  /** The promise of `m`'s body fulfils and its callback runs. */
  function SettleOk(w: World, st: State, m: Id): Outcome {
    Fulfil(w, Put(st, m, Get(st, m).(body := Over)), m)
  }

  /** The promise of `m`'s body rejects with `e` and its callback runs. */
  function SettleError(w: World, st: State, m: Id, e: Error): State {
    FailModule(w, Put(st, m, Get(st, m).(body := Over)), m, e)
  }
}
