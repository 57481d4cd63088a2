/** Evaluate and the asynchronous steps as the loader performs them, on mutable records.
    Every method's result is the value the functions of module Evaluation give. */
module Evaluator {
  import opened ModuleGraph
  import opened Records
  import E = Evaluation

  /** Assigning fields of one record, with the ghost state following. */
  class Executor {
    const r: Registry
    /** The outcome of the bodies: the modules whose bodies throw, and what. */
    const fails: map<Id, Error>

    constructor (r: Registry, fails: map<Id, Error>)
      ensures this.r == r && this.fails == fails
    {
      this.r := r;
      this.fails := fails;
    }

    function World(): E.World {
      E.World(r.g, fails)
    }

    ghost predicate Has(m: Id)
      reads r, r.records
    {
      r.Valid() && m < |r.records|
    }

    method Enter(m: Id, index: int)
      requires Has(m)
      modifies r`st, r.records[m]
      ensures r.Valid() && r.st == E.Put(old(r.st), m, E.Entered(old(r.st).recs[m], index))
    {
      var x := r.records[m];
      assert x.Value() == r.st.recs[m];
      x.status := Evaluating;
      x.dfsIndex := index;
      x.dfsAncestorIndex := index;
      x.pendingAsyncDependencies := 0;
      r.st := E.Put(r.st, m, E.Entered(r.st.recs[m], index));
    }

    method LowerAncestorIndex(m: Id, required: Id)
      requires Has(m) && Has(required)
      modifies r`st, r.records[m]
      ensures r.Valid()
      ensures r.st == E.Put(old(r.st), m, E.Get(old(r.st), m).(dfsAncestorIndex :=
        E.Min(E.Get(old(r.st), m).dfsAncestorIndex, E.Get(old(r.st), required).dfsAncestorIndex)))
    {
      var x, y := r.records[m], r.records[required];
      assert x.Value() == r.st.recs[m] && y.Value() == r.st.recs[required];
      var low := E.Min(x.dfsAncestorIndex, y.dfsAncestorIndex);
      x.dfsAncestorIndex := low;
      r.st := E.Put(r.st, m, r.st.recs[m].(dfsAncestorIndex := low));
    }

    method AddDependency(m: Id, required: Id)
      requires Has(m) && Has(required)
      modifies r`st, r.records[m], r.records[required]
      ensures r.Valid() && r.st == E.Register(old(r.st), m, required)
    {
      var x, y := r.records[m], r.records[required];
      assert x.Value() == r.st.recs[m] && y.Value() == r.st.recs[required];
      if y.asyncEvaluation {
        x.pendingAsyncDependencies := x.pendingAsyncDependencies + 1;
        r.st := E.Put(r.st, m, E.Get(r.st, m).(pendingAsyncDependencies := E.Get(r.st, m).pendingAsyncDependencies + 1));
        assert r.Valid();
        assert y.Value() == r.st.recs[required];
        y.asyncParentModules := y.asyncParentModules + [m];
        r.st := E.Put(r.st, required, E.Get(r.st, required).(asyncParentModules := E.Get(r.st, required).asyncParentModules + [m]));
      }
    }

    /** executeModule: the body runs, or is suspended on the promise it hands back. */
    method ExecuteModule(m: Id, body: Body)
      requires Has(m)
      modifies r`st, r`envs, r.records[m]
      ensures r.Valid() && r.st == E.Begin(old(r.st), m, body)
    {
      var x := r.records[m];
      assert x.Value() == r.st.recs[m];
      x.body := body;
      if x.code.Generator? {
        r.st := E.Begin(r.st, m, body);
      } else {
        x.getters := Some(r.envs);
        r.st := E.Begin(r.st, m, body);
        r.envs := r.envs + 1;
      }
    }

    method SetAsync(m: Id)
      requires Has(m)
      modifies r`st, r`asyncOrder, r.records[m]
      ensures r.Valid()
      ensures r.st == E.Put(old(r.st), m, old(r.st).recs[m].(asyncEvaluation := true, asyncEvaluationOrder := old(r.st).asyncOrder + 1))
                        .(asyncOrder := old(r.st).asyncOrder + 1)
    {
      var x := r.records[m];
      assert x.Value() == r.st.recs[m];
      r.asyncOrder := r.asyncOrder + 1;
      x.asyncEvaluation := true;
      x.asyncEvaluationOrder := r.asyncOrder;
      r.st := E.Put(r.st, m, r.st.recs[m].(asyncEvaluation := true, asyncEvaluationOrder := r.st.asyncOrder + 1))
                .(asyncOrder := r.st.asyncOrder + 1);
    }

    /** The end of a call: the module waits, or its body runs. */
    method RunBody(m: Id) returns (thrown: Option<Error>)
      requires Has(m)
      modifies r`st, r`envs, r`asyncOrder, r.records[m]
      ensures r.Valid() && (r.st, thrown) == E.RunBody(World(), old(r.st), m)
    {
      var x := r.records[m];
      assert x.Value() == r.st.recs[m];
      thrown := None;
      var pending := x.pendingAsyncDependencies;
      if pending > 0 || r.g.HasTLA(m) {
        SetAsync(m);
        if pending == 0 { ExecuteModule(m, Running); }
      } else {
        ExecuteModule(m, Over);
        if m in fails { thrown := Some(fails[m]); } else { r.st := E.Note(r.st, Completed(m)); }
      }
    }

    method SetPopped(m: Id, root: Id)
      requires Has(m)
      modifies r`st, r.records[m]
      ensures r.Valid() && r.st == E.Put(old(r.st), m, E.Popped(E.Get(old(r.st), m), root))
    {
      var x := r.records[m];
      assert x.Value() == r.st.recs[m];
      x.status := if x.asyncEvaluation then EvaluatingAsync else Evaluated;
      x.cycleRoot := Some(root);
      r.st := E.Put(r.st, m, E.Popped(E.Get(r.st, m), root));
    }

    /** evaluateSynthetic. */
    method EvaluateSynthetic(m: Id) returns (thrown: Option<Error>)
      requires Has(m)
      modifies r`st, r.records[m]
      ensures r.Valid() && (r.st, thrown) == E.EvaluateSynthetic(World(), old(r.st), m)
    {
      var x := r.records[m];
      assert x.Value() == r.st.recs[m];
      thrown := None;
      if x.body.Over? {
        if x.hasError { thrown := Some(x.error); }
      } else {
        x.body := Over;
        if m in fails {
          x.hasError := true;
          x.error := fails[m];
          thrown := Some(x.error);
        }
        ghost var st := r.st;
        r.st := E.EvaluateSynthetic(World(), st, m).0;
        assert r.st.recs[m] == x.Value();
      }
    }

    method SetFailed(m: Id, e: Error)
      requires Has(m)
      modifies r`st, r.records[m]
      ensures
        && r.Valid()
        && r.st == E.Put(old(r.st), m, E.Get(old(r.st), m).(status := Evaluated, hasError := true, error := e))
    {
      var x := r.records[m];
      assert x.Value() == r.st.recs[m];
      x.status := Evaluated;
      x.hasError := true;
      x.error := e;
      r.st := E.Put(r.st, m, E.Get(r.st, m).(status := Evaluated, hasError := true, error := e));
    }

    method SetError(m: Id, e: Error)
      requires Has(m)
      modifies r`st, r.records[m]
      ensures r.Valid() && r.st == E.Put(old(r.st), m, E.Get(old(r.st), m).(hasError := true, error := e))
    {
      var x := r.records[m];
      assert x.Value() == r.st.recs[m];
      x.hasError := true;
      x.error := e;
      r.st := E.Put(r.st, m, E.Get(r.st, m).(hasError := true, error := e));
    }

    method SetCapability(m: Id, c: Capability)
      requires Has(m)
      modifies r`st, r.records[m]
      ensures r.Valid() && r.st == E.Put(old(r.st), m, E.Get(old(r.st), m).(topLevelCapability := c))
    {
      var x := r.records[m];
      assert x.Value() == r.st.recs[m];
      x.topLevelCapability := c;
      r.st := E.Put(r.st, m, E.Get(r.st, m).(topLevelCapability := c));
    }

    /** `m.topLevelCapability.resolve(undefined)`, if there is one. */
    method Resolve(m: Id)
      requires Has(m)
      modifies r`st, r.records[m]
      ensures r.Valid() && r.st == E.ResolveCapability(old(r.st), m)
    {
      var x := r.records[m];
      assert x.Value() == r.st.recs[m];
      if !x.topLevelCapability.NoCapability? {
        SetCapability(m, if x.topLevelCapability.Pending? then Resolved else x.topLevelCapability);
        r.st := E.Note(r.st, CapabilityResolved(m));
      }
    }

    method Reject(m: Id, e: Error)
      requires Has(m)
      modifies r`st, r.records[m]
      ensures r.Valid() && r.st == E.RejectCapability(old(r.st), m, e)
    {
      var x := r.records[m];
      assert x.Value() == r.st.recs[m];
      if !x.topLevelCapability.NoCapability? {
        SetCapability(m, if x.topLevelCapability.Pending? then Capability.Rejected(e) else x.topLevelCapability);
        r.st := E.Note(r.st, CapabilityRejected(m));
      }
    }
  }

  /** Every link from one record to another leads to a record. */
  ghost predicate InRange(recs: seq<Rec>) {
    forall x: Id | x < |recs| ::
      && (recs[x].cycleRoot.Some? ==> recs[x].cycleRoot.value < |recs|)
      && (forall p | p in recs[x].asyncParentModules :: p < |recs|)
  }

  ghost predicate AllBelow(s: seq<Id>, n: nat) {
    forall x | x in s :: x < n
  }

  lemma PutInRange(recs: seq<Rec>, m: Id, x: Rec)
    requires InRange(recs) && m < |recs|
    requires x.cycleRoot.Some? ==> x.cycleRoot.value < |recs|
    requires forall p | p in x.asyncParentModules :: p < |recs|
    ensures InRange(recs[m := x])
  {
  }

  // ── InnerModuleEvaluation ────────────────────────────────────────────────

  /** One turn of the loop that pops a component. */
  lemma PopUnfolds(st: State, s: seq<Id>, m: Id)
    requires s != []
    ensures var top, st1 := s[|s|-1], E.Put(st, s[|s|-1], E.Popped(E.Get(st, s[|s|-1]), m));
      E.PopTo(st, s, m) == if top == m then (st1, s[..|s|-1]) else E.PopTo(st1, s[..|s|-1], m)
  {
  }

  lemma PrefixBelow(s: seq<Id>, n: nat)
    requires AllBelow(s, n) && s != []
    ensures AllBelow(s[..|s|-1], n)
  {
    var t := s[..|s|-1];
    forall x | x in t ensures x < n {
      var k :| 0 <= k < |t| && t[k] == x;
      assert s[k] in s;
    }
  }

  class EvaluationWalk {
    const x: Executor
    var stack: seq<Id>

    constructor (x: Executor)
      ensures this.x == x && stack == []
    {
      this.x := x;
      stack := [];
    }

    ghost predicate Good()
      reads this, x.r, x.r.records
    {
      x.r.Valid() && InRange(x.r.st.recs) && AllBelow(stack, |x.r.records|)
    }

    /** What `m` does with a request whose evaluation has returned. */
    method LookAtRequest(m: Id, required: Id) returns (thrown: Option<Error>)
      requires Good() && m < |x.r.records| && required < |x.r.records|
      modifies x.r`st, x.r.records
      ensures Good() && (x.r.st, thrown) == E.AfterRequest(x.World(), old(x.r.st), m, required)
    {
      thrown := None;
      if !x.r.g.Cyclic(required) { return; }
      var y := x.r.records[required];
      assert y.Value() == x.r.st.recs[required];
      hide AllBelow;
      ghost var st0 := x.r.st;
      if y.status.Evaluating? {
        x.LowerAncestorIndex(m, required);
        LowerInRange(st0.recs, m, x.r.st.recs[m]);
        ghost var st1 := x.r.st;
        x.AddDependency(m, required);
        RegisterInRange(st1, m, required);
      } else if y.cycleRoot.None? {
        thrown := Some(E.TYPE_ERROR);
      } else {
        var root := y.cycleRoot.value;
        var z := x.r.records[root];
        assert z.Value() == x.r.st.recs[root];
        if z.hasError {
          thrown := Some(z.error);
        } else {
          x.AddDependency(m, root);
          RegisterInRange(st0, m, root);
        }
      }
    }

    /** Pop one entry, giving it its cycle root. */
    method PopOne(m: Id) returns (done: bool)
      requires Good() && stack != [] && m < |x.r.records|
      modifies this`stack, x.r`st, x.r.records
      ensures Good() && done == (old(stack)[|old(stack)|-1] == m)
      ensures stack == old(stack)[..|old(stack)|-1]
      ensures x.r.st == E.Put(old(x.r.st), old(stack)[|old(stack)|-1], E.Popped(E.Get(old(x.r.st), old(stack)[|old(stack)|-1]), m))
    {
      ghost var recs := x.r.st.recs;
      var required := stack[|stack|-1];
      assert required in stack;
      PrefixBelow(stack, |x.r.records|);
      hide AllBelow;
      stack := stack[..|stack|-1];
      x.SetPopped(required, m);
      PutInRange(recs, required, x.r.st.recs[required]);
      done := required == m;
    }

    /** Pop the stack down to `m`. */
    method PopComponent(m: Id, ghost base: nat)
      requires Good() && base < |stack| && stack[base] == m && m < |x.r.records|
      modifies this`stack, x.r`st, x.r.records
      ensures Good() && (x.r.st, stack) == E.PopTo(old(x.r.st), old(stack), m)
      ensures old(stack)[..base] <= stack
    {
      hide Good, E.PopTo;
      ghost var all := E.PopTo(x.r.st, stack, m);
      ghost var s0 := stack[..base];
      var done := false;
      while !done
        invariant Good() && m < |x.r.records|
        invariant done ==> (x.r.st, stack) == all && s0 <= stack
        invariant !done ==> E.PopTo(x.r.st, stack, m) == all && s0 + [m] <= stack
        decreases |stack| + (if done then 0 else 1)
      {
        PopUnfolds(x.r.st, stack, m);
        assert stack[|s0|] == m;
        done := PopOne(m);
      }
    }

    method InnerModuleEvaluation(m: Id, index: int) returns (index': int, thrown: Option<Error>)
      requires Good() && m < |x.r.records|
      modifies this`stack, x.r`st, x.r`envs, x.r`asyncOrder, x.r.records
      decreases E.Unvisited(x.r.st), 1, 0
      ensures Good() && old(stack) <= stack
      ensures E.Walk(x.r.st, stack, index', thrown) == E.InnerModuleEvaluation(x.World(), old(x.r.st), old(stack), m, index)
    {
      index', thrown := index, None;
      var y := x.r.records[m];
      assert y.Value() == x.r.st.recs[m];
      if !x.r.g.Cyclic(m) {
        ghost var st0 := x.r.st;
        thrown := x.EvaluateSynthetic(m);
        SyntheticInRange(x.World(), st0, m);
        return;
      }
      if y.status.EvaluatingAsync? || y.status.Evaluated? {
        if y.hasError { thrown := Some(y.error); }
        return;
      }
      if y.status.Evaluating? { return; }
      index', thrown := EvaluateFresh(m, index);
    }

    /** A call for a module that has not been visited: its loop, its body, its component. */
    method EvaluateFresh(m: Id, index: int) returns (index': int, thrown: Option<Error>)
      requires Good() && m < |x.r.records| && x.r.g.Cyclic(m) && !E.Visited(x.r.st.recs[m].status)
      modifies this`stack, x.r`st, x.r`envs, x.r`asyncOrder, x.r.records
      decreases E.Unvisited(x.r.st), 0, 0
      ensures Good() && old(stack) <= stack
      ensures E.Walk(x.r.st, stack, index', thrown) == E.InnerModuleEvaluation(x.World(), old(x.r.st), old(stack), m, index)
    {
      ghost var w, st0, s0 := x.World(), x.r.st, stack;
      E.FreshUnfolds(w, st0, s0, m, index);
      hide E.InnerModuleEvaluation, E.EvaluateRequests, E.FinishCall, E.Unvisited, InRange;
      Enter(m, index);
      hide Good;
      index', thrown := EvaluateRequests(m, index + 1);
      if thrown.None? {
        assert stack[|s0|] == m && stack[..|s0|] == s0;
        thrown := FinishCall(m, index', |s0|);
      }
    }

    /** Mark `m` as evaluating and push it. */
    method Enter(m: Id, index: int)
      requires Good() && m < |x.r.records|
      modifies this`stack, x.r`st, x.r.records
      ensures
        && Good()
        && stack == old(stack) + [m]
        && x.r.st == E.Put(old(x.r.st), m, E.Entered(old(x.r.st).recs[m], index))
    {
      ghost var recs := x.r.st.recs;
      stack := stack + [m];
      assert AllBelow(stack, |x.r.records|);
      hide AllBelow;
      x.Enter(m, index);
      LowerInRange(recs, m, x.r.st.recs[m]);
    }

    method FinishCall(m: Id, ghost index: int, ghost base: nat) returns (thrown: Option<Error>)
      requires Good() && m < |x.r.records| && base < |stack| && stack[base] == m
      modifies this`stack, x.r`st, x.r`envs, x.r`asyncOrder, x.r.records
      ensures Good() && old(stack)[..base] <= stack
      ensures E.Walk(x.r.st, stack, index, thrown) == E.FinishCall(x.World(), old(x.r.st), old(stack), m, index)
    {
      ghost var w, st1 := x.World(), x.r.st;
      hide AllBelow, InRange, E.RunBody, E.PopTo;
      thrown := x.RunBody(m);
      RunInRange(w, st1, m);
      if thrown.None? {
        var y := x.r.records[m];
        assert y.Value() == x.r.st.recs[m];
        if y.dfsAncestorIndex == y.dfsIndex { PopComponent(m, base); }
      }
    }

    /** The loop over the requests of `m`. */
    method EvaluateRequests(m: Id, index: int) returns (index': int, thrown: Option<Error>)
      requires Good() && m < |x.r.records| && x.r.g.Cyclic(m)
      modifies this`stack, x.r`st, x.r`envs, x.r`asyncOrder, x.r.records
      decreases E.Unvisited(x.r.st), 3
      ensures Good() && old(stack) <= stack
      ensures E.Walk(x.r.st, stack, index', thrown) == E.EvaluateRequests(x.World(), old(x.r.st), old(stack), m, 0, index)
    {
      ghost var w, st0, s0 := x.World(), x.r.st, stack;
      index', thrown := index, None;
      ghost var all := E.EvaluateRequests(w, st0, s0, m, 0, index);
      hide E.InnerModuleEvaluation, E.Unvisited, Good;
      var i := 0;
      while i < |x.r.g.mods[m].requested|
        invariant 0 <= i <= |x.r.g.mods[m].requested| && thrown.None? && Good() && s0 <= stack
        invariant E.Unvisited(x.r.st) <= E.Unvisited(st0)
        invariant E.EvaluateRequests(w, x.r.st, stack, m, i, index') == all
      {
        index', thrown := EvaluateRequest(m, i, index');
        if thrown.Some? { return; }
        i := i + 1;
      }
    }

    /** One request: evaluate it, then look at what became of it. */
    method EvaluateRequest(m: Id, i: nat, index: int) returns (index': int, thrown: Option<Error>)
      requires Good() && m < |x.r.records| && x.r.g.Cyclic(m) && i < |x.r.g.mods[m].requested|
      modifies this`stack, x.r`st, x.r`envs, x.r`asyncOrder, x.r.records
      decreases E.Unvisited(x.r.st), 2
      ensures Good() && old(stack) <= stack && E.Unvisited(x.r.st) <= E.Unvisited(old(x.r.st))
      ensures E.EvaluateRequests(x.World(), old(x.r.st), old(stack), m, i, index)
        == if thrown.Some? then E.Walk(x.r.st, stack, index', thrown) else E.EvaluateRequests(x.World(), x.r.st, stack, m, i + 1, index')
    {
      ghost var w, st0 := x.World(), x.r.st;
      E.LoopUnfolds(w, st0, stack, m, i, index);
      E.ChildUnvisited(w, st0, stack, w.g.Requested(m)[i], index);
      hide E.InnerModuleEvaluation, E.EvaluateRequests, E.Unvisited, E.AfterRequest, AllBelow, InRange, Registry.Valid;
      var required := x.r.g.mods[m].requested[i];
      assert required == w.g.Requested(m)[i];
      RequestedInRange(w.g, m, required);
      index', thrown := InnerModuleEvaluation(required, index);
      if thrown.None? { thrown := LookAtRequest(m, required); }
    }
  }

  lemma SyntheticInRange(w: E.World, st: State, m: Id)
    requires InRange(st.recs)
    ensures InRange(E.EvaluateSynthetic(w, st, m).0.recs)
  {
  }

  lemma RunInRange(w: E.World, st: State, m: Id)
    requires InRange(st.recs)
    ensures InRange(E.RunBody(w, st, m).0.recs)
  {
  }

  lemma LowerInRange(recs: seq<Rec>, m: Id, b: Rec)
    requires
      && InRange(recs)
      && m < |recs|
      && b.cycleRoot == recs[m].cycleRoot
      && b.asyncParentModules == recs[m].asyncParentModules
    ensures InRange(recs[m := b])
  {
  }

  lemma RegisterInRange(st: State, m: Id, required: Id)
    requires InRange(st.recs) && m < |st.recs|
    ensures InRange(E.Register(st, m, required).recs)
  {
  }

  // ── Evaluate ─────────────────────────────────────────────────────────────

  lemma {:induction false} FailAllAppend(st: State, s: seq<Id>, m: Id, e: Error)
    ensures E.FailAll(st, s + [m], e)
      == E.Put(E.FailAll(st, s, e), m, E.Get(E.FailAll(st, s, e), m).(status := Evaluated, hasError := true, error := e))
    decreases |s|
  {
    if s == [] {
      assert [] + [m] == [m] && [m][1..] == [];
    } else {
      assert (s + [m])[1..] == s[1..] + [m];
      FailAllAppend(E.Put(st, s[0], E.Get(st, s[0]).(status := Evaluated, hasError := true, error := e)), s[1..], m, e);
    }
  }

  /** The stacked records take the error. */
  method FailStack(x: Executor, stack: seq<Id>, e: Error)
    requires x.r.Valid() && InRange(x.r.st.recs) && AllBelow(stack, |x.r.records|)
    modifies x.r`st, x.r.records
    ensures x.r.Valid() && InRange(x.r.st.recs) && x.r.st == E.FailAll(old(x.r.st), stack, e)
  {
    ghost var st := x.r.st;
    for i := 0 to |stack|
      invariant x.r.Valid() && InRange(x.r.st.recs) && x.r.st == E.FailAll(st, stack[..i], e)
    {
      ghost var recs := x.r.st.recs;
      assert stack[..i+1] == stack[..i] + [stack[i]];
      FailAllAppend(st, stack[..i], stack[i], e);
      hide E.FailAll, InRange, AllBelow;
      BelowAt(stack, i, |x.r.records|);
      x.SetFailed(stack[i], e);
      LowerInRange(recs, stack[i], x.r.st.recs[stack[i]]);
    }
    assert stack[..|stack|] == stack;
  }

  /** The record whose promise a call of evaluate hands out. */
  method TargetOf(x: Executor, m: Id) returns (t: Id)
    requires x.r.Valid() && InRange(x.r.st.recs) && m < |x.r.records|
    ensures t == E.Target(x.World(), x.r.st, m) && t < |x.r.records|
  {
    var y := x.r.records[m];
    assert y.Value() == x.r.st.recs[m];
    t := m;
    if x.r.g.Cyclic(m) && (y.status.EvaluatingAsync? || y.status.Evaluated?) && y.cycleRoot.Some? {
      t := y.cycleRoot.value;
    }
  }

  lemma CapabilityInRange(st: State, t: Id, e: Error)
    requires InRange(st.recs)
    ensures InRange(E.ResolveCapability(st, t).recs) && InRange(E.RejectCapability(st, t, e).recs)
  {
  }

  /** `evaluate(m)`, up to the promise it returns, which is `t`'s. */
  method Evaluate(x: Executor, m: Id) returns (t: Id)
    requires x.r.Valid() && InRange(x.r.st.recs) && m < |x.r.records|
    modifies x.r`st, x.r`envs, x.r`asyncOrder, x.r.records
    ensures x.r.Valid() && InRange(x.r.st.recs) && t == E.Target(x.World(), old(x.r.st), m)
    ensures x.r.st == E.Evaluate(x.World(), old(x.r.st), m)
  {
    ghost var w, st := x.World(), x.r.st;
    t := TargetOf(x, m);
    var y := x.r.records[t];
    assert y.Value() == x.r.st.recs[t];
    if !y.topLevelCapability.NoCapability? { return; }
    x.SetCapability(t, Pending);
    LowerInRange(st.recs, t, x.r.st.recs[t]);
    var walk := new EvaluationWalk(x);
    ghost var index;
    var thrown;
    index, thrown := walk.InnerModuleEvaluation(t, 0);
    hide E.InnerModuleEvaluation, E.FailAll, E.Target, InRange, E.ResolveCapability, E.RejectCapability;
    assert E.Attempt(w, st, t) == E.Walk(x.r.st, walk.stack, index, thrown);
    assert y.Value() == x.r.st.recs[t];
    if thrown.None? {
      CapabilityInRange(x.r.st, t, 0);
      if !x.r.g.Cyclic(t) || !y.asyncEvaluation { x.Resolve(t); }
    } else {
      FailStack(x, walk.stack, thrown.value);
      ghost var recs := x.r.st.recs;
      if !x.r.g.Cyclic(t) {
        x.SetError(t, thrown.value);
        LowerInRange(recs, t, x.r.st.recs[t]);
      }
      CapabilityInRange(x.r.st, t, thrown.value);
      x.Reject(t, thrown.value);
    }
  }

  // ── Settling a body ──────────────────────────────────────────────────────

  /** One turn of the loop over a module's async parents. */
  lemma GatherUnfolds(w: E.World, st: State, ps: seq<Id>, list: seq<Id>)
    requires ps != []
    ensures var p := ps[0];
      var a := E.Get(st, p);
      var st1 := E.Put(st, p, a.(pendingAsyncDependencies := a.pendingAsyncDependencies - 1));
      var inner := E.Gather(w, st1, a.asyncParentModules, list + [p]);
      E.Gather(w, st, ps, list) ==
        if p in list then E.Gather(w, st, ps[1..], list)
        else if a.cycleRoot.None? then E.Gathered(st, list, true)
        else if E.Get(st, a.cycleRoot.value).hasError then E.Gather(w, st, ps[1..], list)
        else if a.pendingAsyncDependencies != 1 then E.Gather(w, st1, ps[1..], list)
        else if w.g.HasTLA(p) then E.Gather(w, st1, ps[1..], list + [p])
        else if inner.crashed then inner
        else E.Gather(w, inner.st, ps[1..], inner.list)
  {
  }

  /** gatherAvailableAncestors, with the list it fills. */
  class AncestorWalk {
    const x: Executor
    var execList: seq<Id>

    constructor (x: Executor)
      ensures this.x == x && execList == []
    {
      this.x := x;
      execList := [];
    }

    ghost predicate Good()
      reads this, x.r, x.r.records
    {
      x.r.Valid() && InRange(x.r.st.recs) && AllBelow(execList, |x.r.records|)
    }

    /** `p.pendingAsyncDependencies--`. */
    method Decrement(p: Id)
      requires Good() && p < |x.r.records|
      modifies x.r`st, x.r.records
      ensures Good()
      ensures x.r.st == E.Put(old(x.r.st), p, E.Get(old(x.r.st), p).(pendingAsyncDependencies := E.Get(old(x.r.st), p).pendingAsyncDependencies - 1))
    {
      hide AllBelow;
      ghost var recs := x.r.st.recs;
      var y := x.r.records[p];
      assert y.Value() == x.r.st.recs[p];
      y.pendingAsyncDependencies := y.pendingAsyncDependencies - 1;
      x.r.st := E.Put(x.r.st, p, E.Get(x.r.st, p).(pendingAsyncDependencies := E.Get(x.r.st, p).pendingAsyncDependencies - 1));
      LowerInRange(recs, p, x.r.st.recs[p]);
    }

    /** The loop over the async parents of `m`; `crashed` is a TypeError that ends the walk. */
    method Gather(m: Id) returns (crashed: bool)
      requires Good() && m < |x.r.records|
      modifies this`execList, x.r`st, x.r.records
      decreases E.Ungathered(x.r.st, execList), 2
      ensures Good() && old(execList) <= execList
      ensures E.Gathered(x.r.st, execList, crashed)
        == E.Gather(x.World(), old(x.r.st), E.Get(old(x.r.st), m).asyncParentModules, old(execList))
    {
      crashed := false;
      ghost var w, st0, list0 := x.World(), x.r.st, execList;
      var parents := x.r.records[m].asyncParentModules;
      assert x.r.records[m].Value() == x.r.st.recs[m];
      assert AllBelow(parents, |x.r.records|);
      ghost var all := E.Gather(w, st0, parents, list0);
      hide E.Gather, E.Ungathered, InRange, AllBelow;
      assert parents[0..] == parents;
      var i := 0;
      while i < |parents|
        invariant 0 <= i <= |parents| && !crashed && Good() && list0 <= execList
        invariant E.Ungathered(x.r.st, execList) <= E.Ungathered(st0, list0)
        invariant E.Gather(w, x.r.st, parents[i..], execList) == all
      {
        assert parents[i..][1..] == parents[i+1..];
        BelowAt(parents, i, |x.r.records|);
        crashed := GatherParent(parents[i], parents[i..]);
        if crashed { return; }
        i := i + 1;
      }
      NothingGathered(w, x.r.st, execList);
    }

    /** One async parent. */
    method GatherParent(p: Id, ghost ps: seq<Id>) returns (crashed: bool)
      requires Good() && ps != [] && ps[0] == p && p < |x.r.records|
      modifies this`execList, x.r`st, x.r.records
      decreases E.Ungathered(x.r.st, execList), 1
      ensures Good() && old(execList) <= execList
      ensures E.Ungathered(x.r.st, execList) <= E.Ungathered(old(x.r.st), old(execList))
      ensures E.Gather(x.World(), old(x.r.st), ps, old(execList))
        == if crashed then E.Gathered(x.r.st, execList, true) else E.Gather(x.World(), x.r.st, ps[1..], execList)
    {
      crashed := false;
      ghost var w, st0, list0 := x.World(), x.r.st, execList;
      GatherUnfolds(w, st0, ps, list0);
      hide E.Gather;
      if p in execList { return; }
      var y := x.r.records[p];
      assert y.Value() == x.r.st.recs[p];
      if y.cycleRoot.None? { return true; }
      var root := x.r.records[y.cycleRoot.value];
      assert root.Value() == x.r.st.recs[y.cycleRoot.value];
      if root.hasError { return; }
      Decrement(p);
      assert y.Value() == x.r.st.recs[p];
      SameUngathered(st0, x.r.st, list0);
      if y.pendingAsyncDependencies == 0 {
        crashed := GatherReady(p);
      }
    }

    /** A parent with nothing left pending: it will run, and what waits for it is looked at. */
    method GatherReady(p: Id) returns (crashed: bool)
      requires Good() && p < |x.r.records| && p !in execList
      modifies this`execList, x.r`st, x.r.records
      decreases E.Ungathered(x.r.st, execList), 0
      ensures Good() && old(execList) <= execList
      ensures E.Ungathered(x.r.st, execList) <= E.Ungathered(old(x.r.st), old(execList))
      ensures E.Gathered(x.r.st, execList, crashed)
        == if x.r.g.HasTLA(p) then E.Gathered(old(x.r.st), old(execList) + [p], false)
           else E.Gather(x.World(), old(x.r.st), E.Get(old(x.r.st), p).asyncParentModules, old(execList) + [p])
    {
      crashed := false;
      ghost var st0, list0 := x.r.st, execList;
      execList := execList + [p];
      MoreGathered(st0, list0, p);
      assert AllBelow(execList, |x.r.records|);
      hide E.Gather, AllBelow, InRange, E.Ungathered;
      if !x.r.g.HasTLA(p) {
        crashed := Gather(p);
        GatherShrinks(x.World(), st0, E.Get(st0, p).asyncParentModules, list0 + [p]);
      }
    }
  }

  lemma BelowAt(s: seq<Id>, i: nat, n: nat)
    requires AllBelow(s, n) && i < |s|
    ensures s[i] < n
  {
    assert s[i] in s;
  }

  lemma NothingGathered(w: E.World, st: State, list: seq<Id>)
    ensures E.Gather(w, st, [], list) == E.Gathered(st, list, false)
  {
  }

  lemma SameUngathered(st: State, st1: State, list: seq<Id>)
    requires |st.recs| == |st1.recs|
    ensures E.Ungathered(st, list) == E.Ungathered(st1, list)
  {
  }

  lemma MoreGathered(st: State, list: seq<Id>, p: Id)
    requires p < |st.recs| && p !in list
    ensures E.Ungathered(st, list + [p]) < E.Ungathered(st, list)
  {
    assert p in E.Ungathered(st, list) && p !in E.Ungathered(st, list + [p]);
  }

  lemma GatherShrinks(w: E.World, st: State, ps: seq<Id>, list: seq<Id>)
    ensures var r := E.Gather(w, st, ps, list); E.Ungathered(r.st, r.list) <= E.Ungathered(st, list)
  {
    hide E.Gather;
  }

  /** asyncModuleExecutionRejected. */
  method AsyncModuleExecutionRejected(x: Executor, m: Id, e: Error)
    requires x.r.Valid() && InRange(x.r.st.recs) && m < |x.r.records|
    modifies x.r`st, x.r.records
    decreases E.Unsettled(x.r.st), 0
    ensures x.r.Valid() && InRange(x.r.st.recs) && x.r.st == E.FailModule(x.World(), old(x.r.st), m, e)
  {
    ghost var w, st0 := x.World(), x.r.st;
    var y := x.r.records[m];
    assert y.Value() == x.r.st.recs[m];
    if y.status.Evaluated? { return; }
    x.SetFailed(m, e);
    ghost var st1 := x.r.st;
    assert st1 == E.MarkFailed(st0, m, e);
    LowerInRange(st0.recs, m, st1.recs[m]);
    FailUnfolds(w, st0, m, e);
    assert y.Value() == st1.recs[m];
    var parents := y.asyncParentModules;
    hide E.FailModule, E.FailParents, E.Unsettled;
    assert AllBelow(parents, |x.r.records|);
    assert parents[0..] == parents;
    var i := 0;
    while i < |parents|
      invariant 0 <= i <= |parents| && x.r.Valid() && InRange(x.r.st.recs)
      invariant E.Unsettled(x.r.st) <= E.Unsettled(st1)
      invariant E.FailParents(w, x.r.st, parents[i..], e) == E.FailParents(w, st1, parents, e)
    {
      ghost var st2 := x.r.st;
      assert parents[i..][1..] == parents[i+1..];
      FailTurn(w, st2, parents[i..], e);
      BelowAt(parents, i, |x.r.records|);
      AsyncModuleExecutionRejected(x, parents[i], e);
      i := i + 1;
    }
    FailNone(w, x.r.st, e);
    ghost var recs := x.r.st.recs;
    x.Reject(m, e);
    LowerInRange(recs, m, x.r.st.recs[m]);
    assert recs[m := recs[m]] == recs;
  }

  lemma FailUnfolds(w: E.World, st: State, m: Id, e: Error)
    requires m < |st.recs| && !st.recs[m].status.Evaluated?
    ensures var st1 := E.MarkFailed(st, m, e);
      E.FailModule(w, st, m, e) == E.RejectCapability(E.FailParents(w, st1, E.Get(st, m).asyncParentModules, e), m, e)
      && E.Unsettled(st1) < E.Unsettled(st)
  {
    var st1 := E.MarkFailed(st, m, e);
    assert m in E.Unsettled(st) && m !in E.Unsettled(st1);
    hide E.FailParents, E.RejectCapability;
  }

  lemma FailTurn(w: E.World, st: State, ps: seq<Id>, e: Error)
    requires ps != []
    ensures E.FailParents(w, st, ps, e) == E.FailParents(w, E.FailModule(w, st, ps[0], e), ps[1..], e)
    ensures E.Unsettled(E.FailModule(w, st, ps[0], e)) <= E.Unsettled(st)
  {
    E.SettledUnsettled(st, E.FailModule(w, st, ps[0], e));
    hide E.FailModule;
  }

  lemma FailNone(w: E.World, st: State, e: Error)
    ensures E.FailParents(w, st, [], e) == st
  {
  }

  // ── Fulfilment ───────────────────────────────────────────────────────────

  lemma InsertTurn(st: State, s: seq<Id>, m: Id)
    ensures E.InsertByOrder(st, s, m)
      == if s == [] then [m]
         else if E.Get(st, s[0]).asyncEvaluationOrder <= E.Get(st, m).asyncEvaluationOrder then [s[0]] + E.InsertByOrder(st, s[1..], m)
         else [m] + s
  {
  }

  method OrderOf(x: Executor, m: Id) returns (order: nat)
    requires x.Has(m)
    ensures order == E.Get(x.r.st, m).asyncEvaluationOrder
  {
    assert x.r.records[m].Value() == x.r.st.recs[m];
    order := x.r.records[m].asyncEvaluationOrder;
  }

  method InsertByOrder(x: Executor, s: seq<Id>, m: Id) returns (t: seq<Id>)
    requires x.r.Valid() && AllBelow(s, |x.r.records|) && m < |x.r.records|
    ensures t == E.InsertByOrder(x.r.st, s, m)
  {
    var order := OrderOf(x, m);
    hide E.InsertByOrder, Registry.Valid;
    ghost var st := x.r.st;
    assert s[..0] + E.InsertByOrder(st, s[0..], m) == E.InsertByOrder(st, s, m) by { assert s[0..] == s; }
    for k := 0 to |s|
      invariant s[..k] + E.InsertByOrder(st, s[k..], m) == E.InsertByOrder(st, s, m)
    {
      BelowAt(s, k, |x.r.records|);
      InsertTurn(st, s[k..], m);
      var next := OrderOf(x, s[k]);
      if next > order {
        return s[..k] + ([m] + s[k..]);
      }
      InsertStep(s, k, E.InsertByOrder(st, s[k+1..], m));
    }
    InsertTurn(st, s[|s|..], m);
    t := s[..|s|] + [m];
  }

  lemma InsertStep(s: seq<Id>, k: nat, rest: seq<Id>)
    requires k < |s|
    ensures s[k..][0] == s[k] && s[k..][1..] == s[k+1..]
    ensures s[..k] + ([s[k]] + rest) == s[..k+1] + rest
  {
    assert s[..k+1] == s[..k] + [s[k]];
  }

  lemma {:induction false} InsertIn(st: State, s: seq<Id>, m: Id, n: nat)
    requires AllBelow(s, n) && m < n
    ensures AllBelow(E.InsertByOrder(st, s, m), n)
    decreases |s|
  {
    if s != [] {
      assert s[0] in s && forall y | y in s[1..] :: y in s;
      InsertIn(st, s[1..], m, n);
    }
  }

  /** `execList.sort(...)`: by asynchronous evaluation order. */
  method SortByOrder(x: Executor, s: seq<Id>) returns (t: seq<Id>)
    requires x.r.Valid() && AllBelow(s, |x.r.records|)
    ensures t == E.SortByOrder(x.r.st, s) && AllBelow(t, |x.r.records|)
  {
    t := [];
    for i := 0 to |s|
      invariant t == E.SortByOrder(x.r.st, s[..i]) && AllBelow(t, |x.r.records|)
    {
      assert s[..i+1][..i] == s[..i] && s[..i+1][i] == s[i];
      BelowAt(s, i, |x.r.records|);
      InsertIn(x.r.st, t, s[i], |x.r.records|);
      t := InsertByOrder(x, t, s[i]);
    }
    assert s[..|s|] == s;
  }

  /** A module has completed: settle its record and its promise. */
  method Complete(x: Executor, m: Id)
    requires x.Has(m)
    modifies x.r`st, x.r.records[m]
    ensures x.r.Valid() && x.r.st == E.Complete(old(x.r.st), m)
  {
    var y := x.r.records[m];
    assert y.Value() == x.r.st.recs[m];
    y.asyncEvaluation := false;
    y.status := Evaluated;
    x.r.st := E.Note(E.Put(x.r.st, m, E.Get(x.r.st, m).(asyncEvaluation := false, status := Evaluated)), Completed(m));
    x.Resolve(m);
  }

  lemma CompleteInRange(st: State, m: Id)
    requires InRange(st.recs)
    ensures InRange(E.Complete(st, m).recs)
  {
  }

  lemma BeginInRange(st: State, m: Id, body: Body)
    requires InRange(st.recs)
    ensures InRange(E.Begin(st, m, body).recs)
  {
  }

  /** One turn of the loop over `execList`. */
  method RunReady(x: Executor, p: Id)
    requires x.r.Valid() && InRange(x.r.st.recs) && p < |x.r.records|
    modifies x.r`st, x.r`envs, x.r.records
    ensures x.r.Valid() && InRange(x.r.st.recs) && x.r.st == E.RunReady(x.World(), old(x.r.st), p)
  {
    ghost var st := x.r.st;
    var y := x.r.records[p];
    assert y.Value() == x.r.st.recs[p];
    hide InRange, E.FailModule, E.Complete, E.Begin;
    if y.status.Evaluated? { return; }
    if x.r.g.HasTLA(p) {
      x.ExecuteModule(p, Running);
      BeginInRange(st, p, Running);
      return;
    }
    x.ExecuteModule(p, Over);
    BeginInRange(st, p, Over);
    if p in x.fails {
      AsyncModuleExecutionRejected(x, p, x.fails[p]);
    } else {
      ghost var st1 := x.r.st;
      Complete(x, p);
      CompleteInRange(st1, p);
    }
  }

  lemma RunTurn(w: E.World, st: State, ps: seq<Id>)
    ensures E.RunAllReady(w, st, ps) == if ps == [] then st else E.RunAllReady(w, E.RunReady(w, st, ps[0]), ps[1..])
  {
    hide E.RunReady;
  }

  /** asyncModuleExecutionFulfilled; `crashed` is a TypeError escaping from the ancestor walk. */
  method AsyncModuleExecutionFulfilled(x: Executor, m: Id) returns (crashed: bool)
    requires x.r.Valid() && InRange(x.r.st.recs) && m < |x.r.records|
    modifies x.r`st, x.r`envs, x.r.records
    ensures x.r.Valid() && InRange(x.r.st.recs)
    ensures E.Outcome(x.r.st, crashed) == E.Fulfil(x.World(), old(x.r.st), m)
  {
    ghost var w, st0 := x.World(), x.r.st;
    var y := x.r.records[m];
    assert y.Value() == x.r.st.recs[m];
    crashed := false;
    if y.status.Evaluated? { return; }
    Complete(x, m);
    CompleteInRange(st0, m);
    hide InRange, E.Gather, E.SortByOrder, E.RunReady, E.Complete;
    var walk := new AncestorWalk(x);
    crashed := walk.Gather(m);
    if crashed { return; }
    var execList := SortByOrder(x, walk.execList);
    ghost var st1 := x.r.st;
    var i := 0;
    assert execList[0..] == execList;
    while i < |execList|
      invariant 0 <= i <= |execList| && x.r.Valid() && InRange(x.r.st.recs)
      invariant E.RunAllReady(w, x.r.st, execList[i..]) == E.RunAllReady(w, st1, execList)
    {
      assert execList[i..][1..] == execList[i+1..];
      RunTurn(w, x.r.st, execList[i..]);
      BelowAt(execList, i, |x.r.records|);
      RunReady(x, execList[i]);
      i := i + 1;
    }
    RunTurn(w, x.r.st, execList[|execList|..]);
  }
}
