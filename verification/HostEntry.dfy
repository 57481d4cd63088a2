/** The host's entry points around evaluation: is a graph free of top-level await, is a
    `require` of it synchronous, and which modules keep an unsettled entry module waiting. */
module HostEntry {
  import opened ModuleGraph
  import opened Reachability
  import opened Records
  import opened Evaluation
  import opened AsyncState
  import opened Descend
  import opened EvaluateCall
  import opened Wake
  import opened Moves
  import opened Runs

  // ── graphHasTLA ──────────────────────────────────────────────────────────

  lemma TLABelow(g: Graph, m: Id, x: Id)
    requires Reach(Imports(g), m, x) && ReachesTLA(g, x)
    ensures ReachesTLA(g, m)
  {
    var y :| Reach(Imports(g), x, y) && g.HasTLA(y);
    ReachTrans(Imports(g), m, x, y);
  }

  /** A search for a module with top-level await, with one visited set for all of it. */
  class AwaitSearch {
    var seen: set<Id>

    constructor ()
      ensures seen == {}
    {
      seen := {};
    }

    /** What was added to `seen` has no top-level await, and is closed but for the calls in progress. */
    ghost predicate Searched(g: Graph, before: set<Id>)
      reads this
    {
      && before <= seen
      && (forall x | x in seen - before :: g.Cyclic(x) && !g.HasTLA(x))
      && (forall x, y | x in seen - before && y in g.Requested(x) && g.Cyclic(y) :: y in seen)
    }

    method GraphHasTLA(g: Graph, m: Id) returns (b: bool)
      requires g.Loaded()
      modifies this
      decreases IdsBelow(|g.mods|) - seen, |g.mods|, 1
      ensures old(seen) <= seen
      ensures b ==> ReachesTLA(g, m)
      ensures !b ==> Searched(g, old(seen)) && (g.Cyclic(m) ==> m in seen)
    {
      if !g.Cyclic(m) || m in seen { return false; }
      ghost var before := seen;
      assert m in IdsBelow(|g.mods|) - seen;
      seen := seen + {m};
      if g.mods[m].hasTLA {
        ReachRefl(Imports(g), m);
        assert g.HasTLA(m);
        return true;
      }
      var i := 0;
      while i < |g.mods[m].requested|
        invariant 0 <= i <= |g.mods[m].requested|
        invariant before + {m} <= seen && seen - before > {} && m in seen && m !in before
        invariant forall x | x in seen - before :: g.Cyclic(x) && !g.HasTLA(x)
        invariant forall x, y | x in seen - before && x != m && y in g.Requested(x) && g.Cyclic(y) :: y in seen
        invariant forall j | 0 <= j < i :: g.Cyclic(g.Requested(m)[j]) ==> g.Requested(m)[j] in seen
      {
        var r := g.mods[m].requested[i];
        assert IdsBelow(|g.mods|) - seen < IdsBelow(|g.mods|) - before by {
          assert m in IdsBelow(|g.mods|) - before && m !in IdsBelow(|g.mods|) - seen;
        }
        b := GraphHasTLA(g, r);
        if b {
          assert r in Imports(g)(m);
          ReachEdge(Imports(g), m, r);
          TLABelow(g, m, r);
          return true;
        }
        i := i + 1;
      }
      b := false;
    }
  }

  /** `graphHasTLA(m, new Set())` says whether some reachable module has top-level await. */
  method GraphHasTLA(g: Graph, m: Id) returns (b: bool)
    requires g.Loaded()
    ensures b <==> ReachesTLA(g, m)
  {
    var search := new AwaitSearch();
    b := search.GraphHasTLA(g, m);
    if !b {
      forall y | Reach(Imports(g), m, y) ensures !g.HasTLA(y) {
        NoAwaitBelow(g, search.seen, m, y);
      }
    }
  }

  lemma NoAwaitBelow(g: Graph, seen: set<Id>, m: Id, y: Id)
    requires g.Loaded() && Reach(Imports(g), m, y) && (g.Cyclic(m) ==> m in seen)
    requires forall x | x in seen :: g.Cyclic(x) && !g.HasTLA(x)
    requires forall x, z | x in seen && z in g.Requested(x) && g.Cyclic(z) :: z in seen
    ensures !g.HasTLA(y)
  {
    if g.Cyclic(m) && y !in seen {
      var u, v := ReachExit(Imports(g), seen, m, y);
      if v != y { var z := ReachUnroll(Imports(g), v, y); }
    } else if !g.Cyclic(m) && m != y {
      var z := ReachUnroll(Imports(g), m, y);
    }
  }

  // ── require(esm) ─────────────────────────────────────────────────────────

  /** Everything an evaluation of `t` stacks is reachable from `t`. */
  ghost predicate StackBelow(g: Graph, s: seq<Id>, t: Id) {
    forall x | x in s :: Reach(Imports(g), t, x)
  }

  lemma {:induction false} WalkBelow(w: World, st: State, s: seq<Id>, v: Id, index: int, t: Id)
    requires StackBelow(w.g, s, t) && Reach(Imports(w.g), t, v)
    ensures StackBelow(w.g, InnerModuleEvaluation(w, st, s, v, index).stack, t)
    decreases Unvisited(st), 0, 1
  {
    if w.g.Cyclic(v) && v < |st.recs| && !Visited(st.recs[v].status) {
      FreshUnfolds(w, st, s, v, index);
      var st1 := Put(st, v, Entered(st.recs[v], index));
      var looped := EvaluateRequests(w, st1, s + [v], v, 0, index + 1);
      hide InnerModuleEvaluation, EvaluateRequests, Unvisited, Reach, RunBody;
      LoopBelow(w, st1, s + [v], v, 0, index + 1, t);
      if looped.thrown.None? { PopBelow(w, RunBody(w, looped.st, v).0, looped.stack, v, t); }
    }
  }

  lemma {:induction false} LoopBelow(w: World, st: State, s: seq<Id>, m: Id, i: nat, index: int, t: Id)
    requires StackBelow(w.g, s, t) && Reach(Imports(w.g), t, m)
    ensures StackBelow(w.g, EvaluateRequests(w, st, s, m, i, index).stack, t)
    decreases Unvisited(st), 1, |w.g.Requested(m)| - i
  {
    if i < |w.g.Requested(m)| {
      var v := w.g.Requested(m)[i];
      LoopUnfolds(w, st, s, m, i, index);
      ReachEdge(Imports(w.g), m, v);
      ReachTrans(Imports(w.g), t, m, v);
      hide InnerModuleEvaluation, EvaluateRequests, AfterRequest, Unvisited, Reach;
      WalkBelow(w, st, s, v, index, t);
      var child := InnerModuleEvaluation(w, st, s, v, index);
      var (st1, thrown) := AfterRequest(w, child.st, m, v);
      if child.thrown.None? && thrown.None? { LoopBelow(w, st1, child.stack, m, i + 1, child.index, t); }
    }
  }

  lemma {:induction false} PopBelow(w: World, st: State, s: seq<Id>, m: Id, t: Id)
    requires StackBelow(w.g, s, t)
    ensures StackBelow(w.g, PopTo(st, s, m).1, t)
    decreases |s|
  {
    hide Reach;
    if s != [] {
      var top := s[|s|-1];
      PopBelow(w, Put(st, top, Popped(Get(st, top), m)), s[..|s|-1], m, t);
    }
  }

  /** Without top-level await below `m`, H2 holds of a call for `m` by itself. */
  lemma NoAwaitNeverStrands(w: World, st: State, m: Id)
    requires w.g.Loaded() && Resting(w.g, st) && m < |st.recs| && !ReachesTLA(w.g, m)
    ensures !Strands(w, st, m)
  {
    if Strands(w, st, m) {
      var t := Target(w, st, m);
      TargetInRange(w, st, m);
      TargetBelow(w, st, m);
      var r := Attempt(w, st, t);
      ReachRefl(Imports(w.g), t);
      WalkBelow(w, Opened(st, t), [], t, 0, t);
      AttemptOk(w, st, t);
      assert Walks(w, st, m) && r.thrown.Some? && Stranding(r.st.recs, r.stack) by { hide Attempt, Resting; }
      hide Attempt, Resting, Reach, ReachesTLA, Strands;
      StrandingReachesTLA(w.g, r.st, r.stack, t);
      TLABelow(w.g, m, t);
    }
  }

  lemma TargetBelow(w: World, st: State, m: Id)
    requires Resting(w.g, st) && m < |st.recs|
    ensures Reach(Imports(w.g), m, Target(w, st, m))
  {
    hide Reach, Books, Counted, StartedFree, AsyncReachesTLA, RecordsOk, RequestsMet, EdgesUp, ErrorsUp, CycleParents;
    ReachRefl(Imports(w.g), m);
    if Rooted(st.recs, m) { assert RootOk(w.g, st.recs, m); }
  }

  lemma StrandingReachesTLA(g: Graph, st: State, s: seq<Id>, t: Id)
    requires Thrown(g, st, s, t) && Stranding(st.recs, s) && StackBelow(g, s, t)
    ensures ReachesTLA(g, t)
  {
    hide Reach, CountsOn, StartedFree, Entries, RootsOk, RequestsMet, ErrorsUp, CycleParents;
    var x: Id, p: Id :| Waiting(st.recs, x) && p in Parents(st.recs, x) && p in s;
    assert RecordOk(g, x, st.recs[x], x in s);
    assert EdgeOk(g, st.recs, s, x, p);
    assert ReachesTLA(g, x);
    ReachTrans(Imports(g), t, p, x);
    TLABelow(g, t, x);
  }

  lemma WaitingReachesTLA(g: Graph, st: State, x: Id)
    requires Resting(g, st) && Waiting(st.recs, x)
    ensures ReachesTLA(g, x)
  {
    hide Reach, Books, Counted, StartedFree, RootsOk, RequestsMet, EdgesUp, ErrorsUp, CycleParents;
    assert RecordOk(g, x, st.recs[x], false);
    assert Async(st.recs, x);
  }

  /** The record `requireModule` looks at after its call of evaluate. */
  function RequiredRoot(st: State, m: Id): Id {
    if Get(st, m).cycleRoot.Some? then Get(st, m).cycleRoot.value else m
  }

  /** A target's cycle root does not move: what the call leaves under `RequiredRoot` is its target. */
  lemma RequiredIsTarget(w: World, st: State, m: Id)
    requires w.g.Loaded() && Resting(w.g, st) && m < |st.recs| && w.g.Cyclic(m) && !Strands(w, st, m)
    ensures RequiredRoot(Evaluate(w, st, m), m) == Target(w, st, m)
  {
    var t := Target(w, st, m);
    TargetInRange(w, st, m);
    EvaluateUnfolds(w, st, m);
    RestingRecord(w.g, st, m);
    if Walks(w, st, m) {
      if Visited(st.recs[t].status) {
        assert w.g.Cyclic(t) by { TargetCyclic(w, st, m); }
        AttemptVisited(w, st, t);
        hide Attempt, Resting, Strands;
      } else {
        assert t == m && !Rooted(st.recs, m) by { TargetUnvisited(w, st, m); }
        FreshRoot(w, st, m);
      }
    }
  }

  lemma RestingRecord(g: Graph, st: State, x: Id)
    requires Resting(g, st) && x < |st.recs|
    ensures RecordOk(g, x, st.recs[x], false)
  {
    hide Books, Counted, StartedFree, AsyncReachesTLA, RootsOk, RequestsMet, EdgesUp, ErrorsUp, CycleParents, RecordOk;
  }

  lemma TargetCyclic(w: World, st: State, m: Id)
    requires Resting(w.g, st) && m < |st.recs| && w.g.Cyclic(m)
    ensures w.g.Cyclic(Target(w, st, m))
  {
    hide Books, Counted, StartedFree, AsyncReachesTLA, RecordsOk, RequestsMet, EdgesUp, ErrorsUp, CycleParents, Reach;
    if Rooted(st.recs, m) { assert RootOk(w.g, st.recs, m) && RootOk(w.g, st.recs, Root(st.recs, m)); }
  }

  lemma TargetUnvisited(w: World, st: State, m: Id)
    requires Resting(w.g, st) && m < |st.recs| && w.g.Cyclic(m) && !Visited(Get(st, Target(w, st, m)).status)
    ensures Target(w, st, m) == m && !Rooted(st.recs, m)
  {
    TargetInRange(w, st, m);
    RestingRecord(w.g, st, m);
    RestingRecord(w.g, st, Target(w, st, m));
    TargetCyclic(w, st, m);
    if Rooted(st.recs, m) { TargetRooted(w, st, m); }
    hide Resting;
  }

  lemma TargetRooted(w: World, st: State, m: Id)
    requires Resting(w.g, st) && Rooted(st.recs, m)
    ensures Rooted(st.recs, Root(st.recs, m))
  {
    hide Books, Counted, StartedFree, AsyncReachesTLA, RecordsOk, RequestsMet, EdgesUp, ErrorsUp, CycleParents, Reach;
    assert RootOk(w.g, st.recs, m);
  }

  /** A fresh target ends as its own cycle root, or without one if the walk threw. */
  lemma FreshRoot(w: World, st: State, t: Id)
    requires w.g.Loaded() && Resting(w.g, st) && t < |st.recs| && w.g.Cyclic(t) && !Visited(st.recs[t].status)
    requires st.recs[t].topLevelCapability.NoCapability? && Target(w, st, t) == t && !Strands(w, st, t)
    ensures RequiredRoot(Evaluate(w, st, t), t) == t
    ensures Attempt(w, st, t).thrown.None? ==>
        Root(Evaluate(w, st, t).recs, t) == t && Rooted(Evaluate(w, st, t).recs, t)
  {
    AttemptOk(w, st, t);
    EvaluateUnfolds(w, st, t);
    assert Walks(w, st, t);
    var r := Attempt(w, st, t);
    if r.thrown.None? {
      TargetInRange(w, st, t);
      TargetIsDone(w, st, t);
      hide Attempt, Resting, Evaluates, CallDone, Evaluate;
      ReturningRoot(w, r.st, t);
    } else {
      CaughtPlain(w, Opened(st, t), r, t);
      hide Attempt, Resting, Thrown, Caught, FailAll, Evaluate;
      ThrownRange(w.g, r.st, r.stack, t);
      FailAllOk(r.st, r.stack, r.thrown.value);
      FailAllFacts(w.g, r.st.recs, FailAll(r.st, r.stack, r.thrown.value).recs, r.stack, r.thrown.value);
      assert t in r.stack;
      CapabilityKeepsRoot(FailAll(r.st, r.stack, r.thrown.value), t, r.thrown.value);
    }
  }

  lemma ReturningRoot(w: World, st: State, t: Id)
    ensures
      && Rooted(Returning(w, st, t).recs, t) == Rooted(st.recs, t)
      && Root(Returning(w, st, t).recs, t) == Root(st.recs, t)
  {
  }

  lemma CapabilityKeepsRoot(st: State, t: Id, e: Error)
    ensures Rooted(RejectCapability(st, t, e).recs, t) == Rooted(st.recs, t)
  {
  }

  /** `require` of a graph without top-level await is synchronous: when evaluate returns,
      nothing it reached is left waiting; either everything `m` reaches has run without
      error, or the record looked at has the error the promise was rejected with. */
  lemma RequireIsSynchronous(w: World, st: State, m: Id)
    requires w.g.Loaded() && Resting(w.g, st) && m < |st.recs| && w.g.Cyclic(m) && !ReachesTLA(w.g, m)
    ensures var st1, root := Evaluate(w, st, m), RequiredRoot(Evaluate(w, st, m), m);
      && Resting(w.g, st1) && root < |st1.recs|
      && (forall x: Id | Reach(Imports(w.g), m, x) :: !Waiting(st1.recs, x))
      && (if st1.recs[root].hasError
          then st1.recs[root].topLevelCapability == Capability.Rejected(st1.recs[root].error)
          else st1.recs[root].topLevelCapability == Resolved && forall x: Id | Reach(Imports(w.g), m, x) :: AsyncState.Finished(w.g, st1.recs, x))
  {
    NoAwaitNeverStrands(w, st, m);
    EvaluateRests(w, st, m);
    RequiredIsTarget(w, st, m);
    TargetInRange(w, st, m);
    EvaluateEvolves(w, st, m);
    var st1, t := Evaluate(w, st, m), Target(w, st, m);
    TargetCyclic(w, st, m);
    HandedOut(w, st, m);
    hide Resting, Evaluate, Target, Strands, EvolvesAll, Reach;
    forall x: Id | Reach(Imports(w.g), m, x) ensures !Waiting(st1.recs, x) {
      if Waiting(st1.recs, x) { WaitingReachesTLA(w.g, st1, x); TLABelow(w.g, m, x); }
    }
    TargetBelow(w, st, m);
    CapabilitySays(w.g, st1, t);
    if !st1.recs[t].hasError { AllFinished(w, st1, m); }
  }

  /** After the call, the target has a capability. */
  lemma HandedOut(w: World, st: State, m: Id)
    requires w.g.Loaded() && Resting(w.g, st) && m < |st.recs| && !Strands(w, st, m)
    ensures var st1, t := Evaluate(w, st, m), Target(w, st, m);
      t < |st1.recs| && !st1.recs[t].topLevelCapability.NoCapability?
  {
    TargetInRange(w, st, m);
    EvaluateUnfolds(w, st, m);
    if Walks(w, st, m) {
      if Attempt(w, st, Target(w, st, m)).thrown.None? { EvaluateReturns(w, st, m); } else { EvaluateThrows(w, st, m); }
    }
    hide Resting, Attempt, Strands;
  }

  lemma CapabilitySays(g: Graph, st: State, t: Id)
    requires
      && Resting(g, st)
      && t < |st.recs|
      && g.Cyclic(t)
      && !Waiting(st.recs, t)
      && !st.recs[t].topLevelCapability.NoCapability?
    ensures if st.recs[t].hasError then st.recs[t].topLevelCapability == Capability.Rejected(st.recs[t].error)
            else st.recs[t].topLevelCapability == Resolved && st.recs[t].status.Evaluated?
  {
    hide Quiescent, AsyncReachesTLA, StartsInOrder;
    assert LoggedAt(g, st, None, t);
  }

  lemma AllFinished(w: World, st: State, m: Id)
    requires Resting(w.g, st) && m < |st.recs| && w.g.Cyclic(m)
    requires var t := RequiredRoot(st, m); t < |st.recs| && w.g.Cyclic(t) && Fine(st.recs, t)
    ensures forall x: Id | Reach(Imports(w.g), m, x) :: AsyncState.Finished(w.g, st.recs, x)
  {
    var t := RequiredRoot(st, m);
    RestingRecord(w.g, st, m);
    RestingRecord(w.g, st, t);
    assert OrdersBelow(st.recs, st.asyncOrder) by { hide Quiescent, AsyncReachesTLA; }
    hide Books, Counted, StartedFree, AsyncReachesTLA, Structure, AsyncState.Finished, Reach;
    FineRootFinished(w.g, st.recs, [], m, st.asyncOrder);
    forall x: Id | Reach(Imports(w.g), m, x) ensures AsyncState.Finished(w.g, st.recs, x) {
      FinishedReach(w.g, st.recs, [], m, x, st.asyncOrder);
    }
  }

  // ── mainUnsettled ────────────────────────────────────────────────────────

  /** Asynchronous with nothing pending: suspended in its own body, as the search sees it. */
  predicate Stalled(recs: Recs, x: Id) {
    x < |recs| && recs[x].pendingAsyncDependencies == 0 && recs[x].asyncEvaluation
  }

  ghost function CyclicOnly(g: Graph, s: seq<Id>): seq<Id> {
    if s == [] then [] else (if g.Cyclic(s[0]) then [s[0]] else []) + CyclicOnly(g, s[1..])
  }

  lemma {:induction false} CyclicOnlyIn(g: Graph, s: seq<Id>, y: Id)
    ensures y in CyclicOnly(g, s) <==> y in s && g.Cyclic(y)
  {
    if s != [] {
      CyclicOnlyIn(g, s[1..], y);
      assert y in s <==> y == s[0] || y in s[1..];
    }
  }

  /** The search goes on below a module unless it is stalled itself. */
  ghost function Below(g: Graph, recs: Recs): Id -> seq<Id> {
    (x: Id) => if Stalled(recs, x) then [] else CyclicOnly(g, g.Requested(x))
  }

  lemma BelowIn(g: Graph, recs: Recs, x: Id, y: Id)
    ensures y in Below(g, recs)(x) <==> !Stalled(recs, x) && y in g.Requested(x) && g.Cyclic(y)
  {
    CyclicOnlyIn(g, g.Requested(x), y);
  }

  /** A list without repetitions of stalled modules, each of them visited. */
  ghost predicate Listing(recs: Recs, visited: set<Id>, stalled: seq<Id>) {
    && (forall i, j | 0 <= i < j < |stalled| :: stalled[i] != stalled[j])
    && (forall x | x in stalled :: Stalled(recs, x) && x in visited)
  }

  /** What a search below `m` has added to `before`: modules `m` reaches without passing
      a stalled one, with all that comes below them but for `m` itself. */
  ghost predicate Explored(g: Graph, recs: Recs, m: Id, before: set<Id>, visited: set<Id>, stalled: seq<Id>) {
    && before <= visited
    && (forall x | x in visited - before :: Reach(Below(g, recs), m, x))
    && (forall x | x in visited - before && Stalled(recs, x) :: x in stalled)
    && (forall x, y | x in visited - before && x != m && y in Below(g, recs)(x) :: y in visited)
  }

  ghost predicate BelowVisited(g: Graph, recs: Recs, m: Id, visited: set<Id>) {
    forall y | y in Below(g, recs)(m) :: y in visited
  }

  lemma ExploreMore(g: Graph, recs: Recs, m: Id, before: set<Id>, v: set<Id>, l: seq<Id>, x: Id, visited: set<Id>,
                    stalled: seq<Id>)
    requires Explored(g, recs, m, before, v, l) && x in Below(g, recs)(m)
    requires Explored(g, recs, x, v + {x}, visited, stalled) && BelowVisited(g, recs, x, visited)
    requires l <= stalled && (Stalled(recs, x) ==> x in stalled)
    ensures Explored(g, recs, m, before, visited, stalled)
  {
    hide Reach, Below, Stalled;
    ReachEdge(Below(g, recs), m, x);
    forall z | z in visited - before ensures Reach(Below(g, recs), m, z) {
      if z !in v && z != x { ReachTrans(Below(g, recs), m, x, z); }
    }
    forall z | z in l ensures z in stalled { var k :| 0 <= k < |l| && l[k] == z; assert stalled[k] == z; }
  }

  /** The search of `mainUnsettled`: one visited set, one list of stalled modules. */
  class StallSearch {
    const r: Registry
    var visited: set<Id>
    var stalled: seq<Id>

    constructor (r: Registry)
      ensures this.r == r && visited == {} && stalled == []
    {
      this.r := r;
      visited, stalled := {}, [];
    }

    method Search(m: Id)
      requires r.Valid() && m < |r.records| && r.g.Cyclic(m) && m !in stalled
      requires Listing(r.st.recs, visited, stalled)
      modifies this
      decreases IdsBelow(|r.records|) - visited, 1
      ensures old(stalled) <= stalled
      ensures Explored(r.g, r.st.recs, m, old(visited), visited, stalled) && BelowVisited(r.g, r.st.recs, m, visited)
      ensures Listing(r.st.recs, visited + {m}, stalled)
      ensures if Stalled(r.st.recs, m) then visited == old(visited) && stalled == old(stalled) + [m] else Listing(r.st.recs, visited, stalled)
    {
      var pending, asynchronous := r.records[m].pendingAsyncDependencies, r.records[m].asyncEvaluation;
      assert r.records[m].Value() == r.st.recs[m];
      if pending == 0 && asynchronous {
        stalled := stalled + [m];
      } else {
        assert !Stalled(r.st.recs, m);
        hide Reach, Below, Stalled, Registry.Valid, Explored, BelowVisited, Listing;
        SearchRequests(m);
        ListingMore(r.st.recs, visited, visited + {m}, m, stalled);
      }
    }

    /** The loop over the requests of a module that is not stalled. */
    method SearchRequests(m: Id)
      requires r.Valid() && m < |r.records| && r.g.Cyclic(m) && !Stalled(r.st.recs, m)
      requires Listing(r.st.recs, visited, stalled)
      modifies this
      decreases IdsBelow(|r.records|) - visited, 0
      ensures old(stalled) <= stalled
      ensures Explored(r.g, r.st.recs, m, old(visited), visited, stalled) && BelowVisited(r.g, r.st.recs, m, visited)
      ensures Listing(r.st.recs, visited, stalled)
    {
      hide Reach, Below, Stalled, Registry.Valid, Explored, Listing, BelowVisited;
      ghost var g, recs, before := r.g, r.st.recs, visited;
      ExploredNothing(g, recs, m, before, stalled);
      var requested := r.g.mods[m].requested;
      var i := 0;
      while i < |requested|
        invariant 0 <= i <= |requested| && before <= visited && old(stalled) <= stalled
        invariant Listing(recs, visited, stalled)
        invariant Explored(g, recs, m, before, visited, stalled)
        invariant forall j | 0 <= j < i && g.Cyclic(requested[j]) :: requested[j] in visited
      {
        var x := requested[i];
        assert x in g.Requested(m);
        RequestedInRange(g, m, x);
        if r.g.Cyclic(x) && x !in visited {
          ghost var v, l := visited, stalled;
          visited := visited + {x};
          BelowIn(g, recs, m, x);
          assert x in IdsBelow(|r.records|) - v;
          ListingMore(recs, v, visited, x, l);
          Search(x);
          SearchedMore(g, recs, x, v + {x}, visited, stalled);
          ExploreMore(g, recs, m, before, v, l, x, visited, stalled);
        }
        i := i + 1;
      }
      RequestsVisited(g, recs, m, visited);
    }
  }

  lemma ExploredNothing(g: Graph, recs: Recs, m: Id, before: set<Id>, l: seq<Id>)
    ensures Explored(g, recs, m, before, before, l)
  {
  }

  lemma ListingMore(recs: Recs, v: set<Id>, visited: set<Id>, x: Id, l: seq<Id>)
    requires Listing(recs, v, l) && v <= visited
    ensures Listing(recs, visited, l)
    ensures x !in v ==> x !in l
  {
  }

  lemma SearchedMore(g: Graph, recs: Recs, x: Id, before: set<Id>, visited: set<Id>, l: seq<Id>)
    requires Explored(g, recs, x, before, visited, l) && x in before && Listing(recs, visited + {x}, l)
    ensures x in visited && before <= visited && Listing(recs, visited, l)
  {
    hide Reach, Below, Stalled;
    assert visited + {x} == visited;
  }

  lemma RequestsVisited(g: Graph, recs: Recs, m: Id, visited: set<Id>)
    requires forall j | 0 <= j < |g.Requested(m)| && g.Cyclic(g.Requested(m)[j]) :: g.Requested(m)[j] in visited
    ensures BelowVisited(g, recs, m, visited)
  {
    hide Below;
    forall y | y in Below(g, recs)(m) ensures y in visited { BelowIn(g, recs, m, y); }
  }

  /** `mainUnsettled()`: the modules the search stops at, each once; nothing once the entry
      module's promise has settled. */
  method MainUnsettled(r: Registry, main: Id, mainSettled: bool) returns (listed: Option<seq<Id>>)
    requires r.Valid() && main < |r.records| && r.g.Cyclic(main)
    ensures listed.None? <==> mainSettled
    ensures listed.Some? ==> forall i, j | 0 <= i < j < |listed.value| :: listed.value[i] != listed.value[j]
    ensures listed.Some? ==> forall x: Id ::
      x in listed.value <==> Stalled(r.st.recs, x) && Reach(Below(r.g, r.st.recs), main, x)
  {
    if mainSettled { return None; }
    var search := new StallSearch(r);
    search.Search(main);
    listed := Some(search.stalled);
    ExactlyStalled(r.g, r.st.recs, main, search.visited, search.stalled);
  }

  /** The search goes on from `a` to `b`: a request for a source text module, by a module that
      is not both asynchronous and without anything pending. */
  ghost predicate GoesOn(g: Graph, recs: Recs, a: Id, b: Id) {
    && b in g.Requested(a) && g.Cyclic(b)
    && !(a < |recs| && recs[a].asyncEvaluation && recs[a].pendingAsyncDependencies == 0)
  }

  /** A chain of such requests from `main` to `x`. */
  ghost predicate SearchPath(g: Graph, recs: Recs, main: Id, x: Id, p: seq<Id>) {
    && |p| > 0 && p[0] == main && p[|p|-1] == x
    && forall k, l | 0 <= k < |p| - 1 && l == k + 1 :: GoesOn(g, recs, p[k], p[l])
  }

  /** The search stops at a module exactly when it is asynchronous with nothing pending, and
      finds those at the end of such a chain. */
  lemma StopsExactly(g: Graph, recs: Recs, main: Id, x: Id)
    ensures (Stalled(recs, x) && Reach(Below(g, recs), main, x))
      <==> x < |recs| && recs[x].asyncEvaluation && recs[x].pendingAsyncDependencies == 0 && exists p :: SearchPath(g, recs, main, x, p)
  {
    if p :| PathFrom(Below(g, recs), main, x, p) {
      forall k, l | 0 <= k < |p| - 1 && l == k + 1 ensures GoesOn(g, recs, p[k], p[l]) {
        assert p[k + 1] in Below(g, recs)(p[k]);
        BelowIn(g, recs, p[k], p[k + 1]);
      }
      assert SearchPath(g, recs, main, x, p);
    }
    if p :| SearchPath(g, recs, main, x, p) {
      forall k | 0 <= k < |p| - 1 ensures p[k + 1] in Below(g, recs)(p[k]) {
        assert GoesOn(g, recs, p[k], p[k + 1]);
        BelowIn(g, recs, p[k], p[k + 1]);
      }
      assert PathFrom(Below(g, recs), main, x, p);
    }
  }

  lemma ExactlyStalled(g: Graph, recs: Recs, main: Id, visited: set<Id>, stalled: seq<Id>)
    requires Explored(g, recs, main, {}, visited, stalled) && BelowVisited(g, recs, main, visited)
    requires Listing(recs, visited + {main}, stalled) && (Stalled(recs, main) ==> main in stalled)
    ensures forall x: Id :: x in stalled <==> Stalled(recs, x) && Reach(Below(g, recs), main, x)
  {
    hide Reach, Below, Stalled;
    ReachRefl(Below(g, recs), main);
    forall x: Id ensures x in stalled <==> Stalled(recs, x) && Reach(Below(g, recs), main, x) {
      if Stalled(recs, x) && Reach(Below(g, recs), main, x) {
        assert Closed(Below(g, recs), visited + {main});
        ClosedReach(Below(g, recs), visited + {main}, main, x);
      }
    }
  }

  lemma {:induction false} BelowIsImported(g: Graph, recs: Recs, p: seq<Id>)
    requires IsPath(Below(g, recs), p)
    ensures IsPath(Imports(g), p)
  {
    forall i | 0 <= i < |p| - 1 ensures p[i+1] in Imports(g)(p[i]) { BelowIn(g, recs, p[i], p[i+1]); }
  }

  /** Going down from a module whose cycle has no error, no error is found. */
  ghost function ErrorFree(g: Graph, recs: Recs): set<Id> {
    set x | x in IdsBelow(|recs|) && (g.Cyclic(x) ==> Rooted(recs, x) && !Errored(recs, x) && !Errored(recs, Root(recs, x)))
  }

  lemma ErrorFreeClosed(g: Graph, st: State)
    requires g.Loaded() && Resting(g, st)
    ensures Closed(Imports(g), ErrorFree(g, st.recs))
  {
    forall x: Id, y: Id | x in ErrorFree(g, st.recs) && y in Imports(g)(x) ensures y in ErrorFree(g, st.recs) {
      RequestedInRange(g, x, y);
      if g.Cyclic(y) { ErrorFreeStep(g, st, x, y); }
    }
  }

  lemma ErrorFreeStep(g: Graph, st: State, x: Id, y: Id)
    requires Resting(g, st) && x in ErrorFree(g, st.recs) && y in g.Requested(x) && g.Cyclic(y)
    ensures Rooted(st.recs, y) && !Errored(st.recs, y) && !Errored(st.recs, Root(st.recs, y))
  {
    var recs := st.recs;
    assert OrdersBelow(recs, st.asyncOrder) by { hide Quiescent, AsyncReachesTLA; }
    hide Books, Counted, StartedFree, AsyncReachesTLA, Reach, EdgesUp, CycleParents, RecordOk;
    assert RequestMet(g, recs, x, y);
    var z := Root(recs, y);
    assert RootOk(g, recs, y) && RootOk(g, recs, x);
    assert !Errored(recs, z);
    hide RootsOk, RequestsMet, ErrorsUp, RecordsOk;
    if Errored(recs, y) { UnfinishedReachesRoot(g, recs, [], y, st.asyncOrder); }
  }

  /** What the search lists is suspended in its own body, if the entry module's cycle has no error. */
  lemma StalledRuns(g: Graph, st: State, main: Id, x: Id)
    requires g.Loaded() && Resting(g, st) && main in ErrorFree(g, st.recs)
    requires Stalled(st.recs, x) && Reach(Imports(g), main, x)
    ensures Waiting(st.recs, x) && st.recs[x].body.Running?
  {
    ErrorFreeClosed(g, st);
    ClosedReach(Imports(g), ErrorFree(g, st.recs), main, x);
    RestingRecord(g, st, x);
    hide Structure, Books, StartedFree, AsyncReachesTLA, Reach;
    assert Eligible(st.recs, x);
    assert StartOk(st.recs, x);
  }

  /** Down a path to a stalled module, the first stalled one is where the search stops. */
  lemma {:induction false} FirstStalled(g: Graph, recs: Recs, p: seq<Id>, k: nat) returns (z: Id)
    requires IsPath(Imports(g), p) && k < |p| && Stalled(recs, p[|p|-1])
    requires forall i | 0 <= i < |p| :: g.Cyclic(p[i])
    requires forall i | 0 <= i < k :: !Stalled(recs, p[i])
    requires Reach(Below(g, recs), p[0], p[k])
    ensures Stalled(recs, z) && Reach(Below(g, recs), p[0], z)
    decreases |p| - k
  {
    hide Reach, Below, Stalled;
    if Stalled(recs, p[k]) {
      z := p[k];
    } else {
      assert p[k+1] in Imports(g)(p[k]);
      BelowIn(g, recs, p[k], p[k+1]);
      ReachEdge(Below(g, recs), p[k], p[k+1]);
      ReachTrans(Below(g, recs), p[0], p[k], p[k+1]);
      z := FirstStalled(g, recs, p, k + 1);
    }
  }

  lemma PathIsCyclic(g: Graph, p: seq<Id>)
    requires IsPath(Imports(g), p) && g.Cyclic(p[|p|-1])
    ensures forall i | 0 <= i < |p| :: g.Cyclic(p[i])
  {
    forall i | 0 <= i < |p| ensures g.Cyclic(p[i]) {
      if i < |p| - 1 { assert p[i+1] in Imports(g)(p[i]); }
    }
  }

  /** The entry module whose promise is pending, its own or that of its cycle's root, has a
      running body below it, and no error to be found on the way. */
  lemma PendingMain(g: Graph, st: State, main: Id) returns (y: Id)
    requires Resting(g, st) && main < |st.recs| && g.Cyclic(main)
    requires var t := RequiredRoot(st, main); t < |st.recs| && st.recs[t].topLevelCapability.Pending?
    ensures main in ErrorFree(g, st.recs)
    ensures Stalled(st.recs, y) && Reach(Imports(g), main, y) && g.Cyclic(y)
  {
    var t := RequiredRoot(st, main);
    PendingWaits(g, st, t);
    y := RunningBelow(g, st, t);
    assert OrdersBelow(st.recs, st.asyncOrder) by { hide Quiescent, AsyncReachesTLA; }
    hide Books, Counted, StartedFree, AsyncReachesTLA, Reach, RequestsMet, EdgesUp, CycleParents, RecordOk, Stalled;
    ReachRefl(Imports(g), main);
    assert Rooted(st.recs, main) && Root(st.recs, main) == t;
    assert RootOk(g, st.recs, main);
    ReachTrans(Imports(g), main, t, y);
    hide RootsOk, ErrorsUp, RecordsOk;
    if Errored(st.recs, main) { UnfinishedReachesRoot(g, st.recs, [], main, st.asyncOrder); }
  }

  /** While the promise that `evaluate(main)` hands out is pending, be it the entry module's
      own or the one of its cycle's root, the list is not empty, and each listed module is
      reachable and suspended in its own body. */
  lemma PendingMainIsListed(g: Graph, st: State, main: Id, listed: seq<Id>)
    requires g.Loaded() && Resting(g, st) && main < |st.recs| && g.Cyclic(main)
    requires var t := RequiredRoot(st, main); t < |st.recs| && st.recs[t].topLevelCapability.Pending?
    requires forall x: Id :: x in listed <==> Stalled(st.recs, x) && Reach(Below(g, st.recs), main, x)
    ensures listed != []
    ensures forall x | x in listed :: Reach(Imports(g), main, x) && Waiting(st.recs, x) && st.recs[x].body.Running?
  {
    var y := PendingMain(g, st, main);
    var p :| PathFrom(Imports(g), main, y, p);
    PathIsCyclic(g, p);
    ReachRefl(Below(g, st.recs), main);
    var z := FirstStalled(g, st.recs, p, 0);
    hide Resting, Stalled, Below, ErrorFree;
    forall x | x in listed ensures Reach(Imports(g), main, x) && Waiting(st.recs, x) && st.recs[x].body.Running? {
      var q :| PathFrom(Below(g, st.recs), main, x, q);
      BelowIsImported(g, st.recs, q);
      assert PathFrom(Imports(g), main, x, q);
      StalledRuns(g, st, main, x);
    }
  }

  /** In particular while the entry module's own promise is pending. */
  lemma OwnMainIsListed(g: Graph, st: State, main: Id, listed: seq<Id>)
    requires g.Loaded() && Resting(g, st) && main < |st.recs| && st.recs[main].topLevelCapability.Pending?
    requires forall x: Id :: x in listed <==> Stalled(st.recs, x) && Reach(Below(g, st.recs), main, x)
    ensures listed != []
    ensures forall x | x in listed :: Reach(Imports(g), main, x) && Waiting(st.recs, x) && st.recs[x].body.Running?
  {
    PendingWaits(g, st, main);
    RestingRecord(g, st, main);
    hide Resting, Stalled, Below;
    PendingMainIsListed(g, st, main, listed);
  }

  /** So it is after a call of `evaluate` for the entry module whose promise is not settled yet. */
  lemma EvaluatedMainIsListed(w: World, st: State, main: Id, listed: seq<Id>)
    requires w.g.Loaded() && Resting(w.g, st) && main < |st.recs| && w.g.Cyclic(main) && !Strands(w, st, main)
    requires var t, st1 := Target(w, st, main), Evaluate(w, st, main);
      t < |st1.recs| && st1.recs[t].topLevelCapability.Pending?
    requires var recs := Evaluate(w, st, main).recs; forall x: Id :: x in listed <==> Stalled(recs, x) && Reach(Below(w.g, recs), main, x)
    ensures listed != []
    ensures var recs := Evaluate(w, st, main).recs;
      forall x | x in listed :: Reach(Imports(w.g), main, x) && Waiting(recs, x) && recs[x].body.Running?
  {
    EvaluateRests(w, st, main);
    RequiredIsTarget(w, st, main);
    EvaluateEvolves(w, st, main);
    hide Resting, Strands, Evaluate, Target, Descend.EvolvesAll, Stalled, Below;
    PendingMainIsListed(w.g, Evaluate(w, st, main), main, listed);
  }

  lemma RunningBelow(g: Graph, st: State, main: Id) returns (y: Id)
    requires Resting(g, st) && Waiting(st.recs, main) && !Errored(st.recs, Root(st.recs, main))
    ensures Stalled(st.recs, y) && Reach(Imports(g), main, y) && g.Cyclic(y)
  {
    hide Books, StartedFree, AsyncReachesTLA, Reach;
    y := SomeBodyRuns(g, st.recs, main);
    hide Counted, RootsOk, RequestsMet, EdgesUp, ErrorsUp, CycleParents;
    assert RecordOk(g, y, st.recs[y], false);
  }
}
