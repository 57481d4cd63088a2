/** What holds of the records while modules evaluate, and what follows from it. */
module AsyncState {
  import opened ModuleGraph
  import opened Reachability
  import opened Records
  import opened Evaluation

  // ── Reading a record ─────────────────────────────────────────────────────

  type Recs = seq<Rec>

  /** Unsettled: popped off an evaluation's stack, its body or a dependency still pending. */
  predicate Waiting(recs: Recs, x: Id) { x < |recs| && recs[x].status.EvaluatingAsync? }

  predicate Errored(recs: Recs, x: Id) { x < |recs| && recs[x].hasError }

  /** Settled without error. */
  predicate Fine(recs: Recs, x: Id) { x < |recs| && recs[x].status.Evaluated? && !recs[x].hasError }

  predicate Rooted(recs: Recs, x: Id) { x < |recs| && recs[x].cycleRoot.Some? }

  function Root(recs: Recs, x: Id): Id { if Rooted(recs, x) then recs[x].cycleRoot.value else |recs| }

  function Parents(recs: Recs, x: Id): seq<Id> { if x < |recs| then recs[x].asyncParentModules else [] }

  function Order(recs: Recs, x: Id): nat { if x < |recs| then recs[x].asyncEvaluationOrder else 0 }

  predicate Async(recs: Recs, x: Id) { x < |recs| && recs[x].asyncEvaluation }

  /** A synthetic module that has been evaluated without error. */
  predicate SyntheticDone(recs: Recs, x: Id) { x < |recs| && recs[x].body.Over? && !recs[x].hasError }

  // ── Counting occurrences in the parent lists of live modules ─────────────

  function Count(s: seq<Id>, p: Id): nat {
    if s == [] then 0 else (if s[0] == p then 1 else 0) + Count(s[1..], p)
  }

  lemma {:induction false} CountAppend(s: seq<Id>, q: Id, p: Id)
    ensures Count(s + [q], p) == Count(s, p) + (if q == p then 1 else 0)
  {
    if s == [] {
      assert s + [q] == [q];
    } else {
      assert (s + [q])[1..] == s[1..] + [q];
      CountAppend(s[1..], q, p);
    }
  }

  lemma {:induction false} CountConcat(s: seq<Id>, t: seq<Id>, p: Id)
    ensures Count(s + t, p) == Count(s, p) + Count(t, p)
  {
    if s == [] {
      assert s + t == t;
    } else {
      assert (s + t)[1..] == s[1..] + t;
      CountConcat(s[1..], t, p);
    }
  }

  lemma {:induction false} CountIn(s: seq<Id>, p: Id)
    ensures Count(s, p) > 0 <==> p in s
  {
    if s != [] {
      CountIn(s[1..], p);
      assert p in s <==> p == s[0] || p in s[1..];
    }
  }

  ghost function Share(recs: Recs, live: set<Id>, p: Id, x: Id): nat {
    if x in live then Count(Parents(recs, x), p) else 0
  }

  /** How often `p` occurs in the parent lists of the modules in `live` below `k`. */
  ghost function OccTo(recs: Recs, live: set<Id>, p: Id, k: nat): nat {
    if k == 0 then 0 else OccTo(recs, live, p, k - 1) + Share(recs, live, p, k - 1)
  }

  ghost function Occ(recs: Recs, live: set<Id>, p: Id): nat {
    OccTo(recs, live, p, |recs|)
  }

  lemma {:induction false} OccToSame(recs: Recs, recs1: Recs, live: set<Id>, live1: set<Id>, p: Id, k: nat)
    requires forall x: Id | x < k :: Share(recs, live, p, x) == Share(recs1, live1, p, x)
    ensures OccTo(recs, live, p, k) == OccTo(recs1, live1, p, k)
  {
    if k > 0 { OccToSame(recs, recs1, live, live1, p, k - 1); }
  }

  /** Taking one module out of the live set takes its list out of the count. */
  lemma {:induction false} OccToRemove(recs: Recs, live: set<Id>, x: Id, p: Id, k: nat)
    requires x in live
    ensures OccTo(recs, live, p, k) == OccTo(recs, live - {x}, p, k) + (if x < k then Count(Parents(recs, x), p) else 0)
  {
    if k > 0 {
      OccToRemove(recs, live, x, p, k - 1);
    }
  }

  lemma OccRemove(recs: Recs, live: set<Id>, x: Id, p: Id)
    requires x in live && x < |recs|
    ensures Occ(recs, live, p) == Occ(recs, live - {x}, p) + Count(Parents(recs, x), p)
  {
    OccToRemove(recs, live, x, p, |recs|);
  }

  /** Two states count the same when every module contributes the same. */
  lemma OccSame(recs: Recs, recs1: Recs, live: set<Id>, live1: set<Id>, p: Id)
    requires |recs| == |recs1|
    requires forall x: Id | x < |recs| :: Share(recs, live, p, x) == Share(recs1, live1, p, x)
    ensures Occ(recs, live, p) == Occ(recs1, live1, p)
  {
    OccToSame(recs, recs1, live, live1, p, |recs|);
  }

  lemma {:induction false} OccToPositive(recs: Recs, live: set<Id>, p: Id, k: nat) returns (x: Id)
    requires OccTo(recs, live, p, k) > 0
    ensures x < k && x in live && p in Parents(recs, x)
  {
    CountIn(Parents(recs, k - 1), p);
    if k - 1 in live && p in Parents(recs, k - 1) { x := k - 1; } else { x := OccToPositive(recs, live, p, k - 1); }
  }

  lemma {:induction false} OccToZero(recs: Recs, live: set<Id>, p: Id, k: nat)
    requires forall x: Id | x < k && x in live :: p !in Parents(recs, x)
    ensures OccTo(recs, live, p, k) == 0
  {
    if k > 0 {
      CountIn(Parents(recs, k - 1), p);
      OccToZero(recs, live, p, k - 1);
    }
  }

  lemma {:induction false} OccToIn(recs: Recs, live: set<Id>, p: Id, x: Id, k: nat)
    requires x < k && x in live && p in Parents(recs, x)
    ensures OccTo(recs, live, p, k) > 0
  {
    CountIn(Parents(recs, x), p);
    if x < k - 1 { OccToIn(recs, live, p, x, k - 1); }
  }

  lemma OccIn(recs: Recs, live: set<Id>, p: Id, x: Id)
    requires x < |recs| && x in live && p in Parents(recs, x)
    ensures Occ(recs, live, p) > 0
  {
    OccToIn(recs, live, p, x, |recs|);
  }

  lemma OccZero(recs: Recs, live: set<Id>, p: Id)
    requires forall x: Id | x < |recs| && x in live :: p !in Parents(recs, x)
    ensures Occ(recs, live, p) == 0
  {
    OccToZero(recs, live, p, |recs|);
  }

  // ── Invariants ───────────────────────────────────────────────────────────

  /** One record by itself; `onStack` says whether an evaluation in progress has it on its stack. */
  ghost predicate RecordOk(g: Graph, x: Id, r: Rec, onStack: bool) {
    if !g.Cyclic(x) then
      && r.status.New? && r.cycleRoot.None? && !r.asyncEvaluation && r.asyncParentModules == []
      && !r.body.Running? && (r.hasError ==> r.body.Over?) && r.code.NotCompiled? && !onStack
    else
      && !r.status.Linking?
      && (r.status.Evaluating? <==> onStack)
      && (r.cycleRoot.Some? ==> r.status.EvaluatingAsync? || r.status.Evaluated?)
      && (r.status.EvaluatingAsync? ==> r.cycleRoot.Some? && r.asyncEvaluation && !r.hasError)
      && (r.status.Evaluated? ==> r.cycleRoot.Some? || r.hasError)
      && (r.hasError ==> r.status.Evaluated? && (r.cycleRoot.Some? ==> r.asyncEvaluation))
      && (r.status.Evaluated? && !r.hasError ==> !r.asyncEvaluation && r.body.Over?)
      && (!Visited(r.status) ==> !r.asyncEvaluation && r.asyncParentModules == [] && r.body.Unstarted?)
      && (r.body.Running? ==> g.HasTLA(x) && r.asyncEvaluation)
  }

  ghost predicate RecordsOk(g: Graph, recs: Recs, s: seq<Id>) {
    && |recs| == |g.mods|
    && (forall x: Id | x < |recs| :: RecordOk(g, x, recs[x], x in s))
    && (forall x | x in s :: x < |recs|)
  }

  /** The modules with one cycle root are one strongly connected component. */
  ghost predicate RootOk(g: Graph, recs: Recs, x: Id) {
    && g.Cyclic(x)
    && Rooted(recs, Root(recs, x)) && Root(recs, Root(recs, x)) == Root(recs, x)
    && MutualReach(Imports(g), x, Root(recs, x))
    && (forall y: Id | MutualReach(Imports(g), x, y) :: Rooted(recs, y) && Root(recs, y) == Root(recs, x))
  }

  ghost predicate RootsOk(g: Graph, recs: Recs) {
    forall x: Id {:trigger RootOk(g, recs, x)} | Rooted(recs, x) :: RootOk(g, recs, x)
  }

  /** The component of `y` has settled without error, or `x` waits for it. */
  ghost predicate Waits(recs: Recs, x: Id, y: Id) {
    Rooted(recs, y) && (Fine(recs, Root(recs, y)) || x in Parents(recs, Root(recs, y)))
  }

  ghost predicate RequestMet(g: Graph, recs: Recs, x: Id, y: Id) {
    if g.Cyclic(y) then Rooted(recs, y) && (Root(recs, y) == Root(recs, x) || Waits(recs, x, y))
    else SyntheticDone(recs, y)
  }

  /** Everything a popped module requests is popped too, and outside its own cycle it is
      finished or waited for. */
  ghost predicate RequestsMet(g: Graph, recs: Recs) {
    forall x: Id, y: Id {:trigger RequestMet(g, recs, x, y)} | Rooted(recs, x) && y in g.Requested(x) :: RequestMet(g, recs, x, y)
  }

  /** `p` waits for `x`. */
  ghost predicate EdgeOk(g: Graph, recs: Recs, s: seq<Id>, x: Id, p: Id) {
    && g.Cyclic(p) && p < |recs| && Reach(Imports(g), p, x)
    && (Rooted(recs, p) || p in s)
    && (Async(recs, p) || Rooted(recs, p) ==> Order(recs, x) < Order(recs, p))
    && (Waiting(recs, x) ==> p in s || Waiting(recs, p) || Errored(recs, p))
    && (x in s ==> p in s && x in g.Requested(p))
    && (p in s ==> Waiting(recs, x) || x in s)
    && (Rooted(recs, x) && Root(recs, x) != x ==> Rooted(recs, p) && Root(recs, p) == Root(recs, x))
  }

  /** Parents come after their children in the asynchronous order, and are not done before them. */
  ghost predicate EdgesUp(g: Graph, recs: Recs, s: seq<Id>) {
    forall x: Id, p: Id {:trigger EdgeOk(g, recs, s, x, p)} | p in Parents(recs, x) && (Rooted(recs, x) || x in s) :: EdgeOk(g, recs, s, x, p)
  }

  /** An error has reached every parent. */
  ghost predicate ErrorsUp(recs: Recs) {
    forall x: Id, p: Id | Rooted(recs, x) && Errored(recs, x) && p in Parents(recs, x) :: Errored(recs, p)
  }

  ghost predicate HasCycleParent(recs: Recs, x: Id) {
    exists p :: p in Parents(recs, x) && Rooted(recs, p) && Root(recs, p) == Root(recs, x)
  }

  /** An asynchronous member of a cycle, other than the root, has a parent in the cycle. */
  ghost predicate CycleParents(recs: Recs) {
    forall x: Id {:trigger HasCycleParent(recs, x)} | Rooted(recs, x) && Root(recs, x) != x && (Waiting(recs, x) || Errored(recs, x)) ::
      HasCycleParent(recs, x)
  }

  ghost predicate OrdersBelow(recs: Recs, k: nat) {
    forall x: Id | x < |recs| :: recs[x].asyncEvaluationOrder <= k
  }

  /** The structure of a settled or waiting part of the graph; `s` is the stack of an
      evaluation in progress, empty between steps. */
  ghost predicate Structure(g: Graph, recs: Recs, s: seq<Id>) {
    && RecordsOk(g, recs, s)
    && RootsOk(g, recs)
    && RequestsMet(g, recs)
    && EdgesUp(g, recs, s)
    && ErrorsUp(recs)
    && CycleParents(recs)
  }

  /** Nothing that has started is still waited upon by anything it waits for. */
  ghost predicate StartedFree(recs: Recs) {
    forall x: Id, p: Id | Waiting(recs, x) && p in Parents(recs, x) && p < |recs| && !recs[p].body.Unstarted? :: !Waiting(recs, p)
  }

  ghost function LiveSet(recs: Recs): set<Id> {
    set x | x in IdsBelow(|recs|) && Waiting(recs, x)
  }

  /** `pendingAsyncDependencies` counts the occurrences of `p` in the lists of unsettled
      modules, with multiplicity; a module waiting for nothing has been started. */
  ghost predicate PendingOk(recs: Recs, live: set<Id>, p: Id) {
    p < |recs| && recs[p].pendingAsyncDependencies == Occ(recs, live, p)
  }

  ghost predicate StartOk(recs: Recs, p: Id) {
    p < |recs| && (if recs[p].pendingAsyncDependencies == 0 then recs[p].body.Running? else recs[p].body.Unstarted?)
  }

  ghost predicate Counted(recs: Recs) {
    && (forall p: Id {:trigger PendingOk(recs, LiveSet(recs), p)} | Waiting(recs, p) && !Errored(recs, Root(recs, p)) :: PendingOk(recs, LiveSet(recs), p))
    && (forall p: Id {:trigger StartOk(recs, p)} | Waiting(recs, p) && !Errored(recs, Root(recs, p)) :: StartOk(recs, p))
  }

  // ── Errors reach the root, and completion covers everything reachable ────

  /** A member of a cycle that is waiting or errored keeps the root waiting or errored. */
  lemma {:induction false} UnfinishedReachesRoot(g: Graph, recs: Recs, s: seq<Id>, x: Id, bound: nat)
    requires Structure(g, recs, s) && OrdersBelow(recs, bound)
    requires Rooted(recs, x) && (Waiting(recs, x) || Errored(recs, x))
    ensures Waiting(recs, Root(recs, x)) || Errored(recs, Root(recs, x))
    ensures Errored(recs, x) ==> Errored(recs, Root(recs, x))
    decreases bound - Order(recs, x)
  {
    hide Reach, RecordOk;
    if Root(recs, x) != x {
      assert HasCycleParent(recs, x);
      var p :| p in Parents(recs, x) && Rooted(recs, p) && Root(recs, p) == Root(recs, x);
      assert EdgeOk(g, recs, s, x, p);
      assert RootOk(g, recs, p);
      PopIsOffStack(g, recs, s, p);
      UnfinishedReachesRoot(g, recs, s, p, bound);
    }
  }

  lemma PopIsOffStack(g: Graph, recs: Recs, s: seq<Id>, p: Id)
    requires RecordsOk(g, recs, s) && Rooted(recs, p)
    ensures p !in s
    ensures Waiting(recs, p) || Errored(recs, p) || Fine(recs, p)
  {
    assert RecordOk(g, p, recs[p], p in s);
  }

  /** `x` and everything below it is finished without error. */
  ghost predicate Finished(g: Graph, recs: Recs, x: Id) {
    if g.Cyclic(x) then Rooted(recs, x) && Fine(recs, x) && Fine(recs, Root(recs, x)) else SyntheticDone(recs, x)
  }

  lemma FinishedStep(g: Graph, recs: Recs, s: seq<Id>, x: Id, y: Id, bound: nat)
    requires Structure(g, recs, s) && OrdersBelow(recs, bound)
    requires Finished(g, recs, x) && y in g.Requested(x)
    ensures Finished(g, recs, y)
  {
    hide Reach, RecordOk;
    assert RequestMet(g, recs, x, y);
    if g.Cyclic(y) {
      var z := Root(recs, y);
      assert RootOk(g, recs, y);
      if z != Root(recs, x) && !Fine(recs, z) {
        assert x in Parents(recs, z);
        assert EdgeOk(g, recs, s, z, x);
        PopIsOffStack(g, recs, s, x);
        PopIsOffStack(g, recs, s, z);
      }
      PopIsOffStack(g, recs, s, y);
      if !Fine(recs, y) { UnfinishedReachesRoot(g, recs, s, y, bound); }
    }
  }

  lemma {:induction false} FinishedPath(g: Graph, recs: Recs, s: seq<Id>, p: seq<Id>, k: nat, bound: nat)
    requires Structure(g, recs, s) && OrdersBelow(recs, bound)
    requires IsPath(Imports(g), p) && k < |p| && Finished(g, recs, p[0])
    ensures Finished(g, recs, p[k])
  {
    hide Structure, Finished;
    if k > 0 {
      FinishedPath(g, recs, s, p, k - 1, bound);
      assert p[(k - 1) + 1] in Imports(g)(p[k - 1]);
      FinishedStep(g, recs, s, p[k - 1], p[k], bound);
    }
  }

  /** When the root of a cycle has settled without error, so has everything the cycle reaches. */
  lemma FinishedReach(g: Graph, recs: Recs, s: seq<Id>, x: Id, y: Id, bound: nat)
    requires Structure(g, recs, s) && OrdersBelow(recs, bound)
    requires Finished(g, recs, x) && Reach(Imports(g), x, y)
    ensures Finished(g, recs, y)
  {
    hide Structure, Finished;
    var p :| PathFrom(Imports(g), x, y, p);
    FinishedPath(g, recs, s, p, |p| - 1, bound);
  }

  lemma FineRootFinished(g: Graph, recs: Recs, s: seq<Id>, y: Id, bound: nat)
    requires Structure(g, recs, s) && OrdersBelow(recs, bound)
    requires Rooted(recs, y) && Fine(recs, Root(recs, y))
    ensures Finished(g, recs, y)
  {
    hide Reach, RecordOk;
    assert RootOk(g, recs, y);
    PopIsOffStack(g, recs, s, y);
    if !Fine(recs, y) { UnfinishedReachesRoot(g, recs, s, y, bound); }
  }

  // ── Progress ─────────────────────────────────────────────────────────────

  /** Below an unsettled module whose cycle has no error there is one whose own body is
      suspended. */
  lemma {:induction false} SomeBodyRuns(g: Graph, recs: Recs, p: Id) returns (x: Id)
    requires Structure(g, recs, []) && Counted(recs)
    requires Waiting(recs, p) && !Errored(recs, Root(recs, p))
    ensures
      && Waiting(recs, x)
      && !Errored(recs, Root(recs, x))
      && recs[x].body.Running?
      && recs[x].pendingAsyncDependencies == 0
    ensures Reach(Imports(g), p, x)
    decreases Order(recs, p)
  {
    hide Reach, RecordOk, Occ;
    assert PendingOk(recs, LiveSet(recs), p) && StartOk(recs, p);
    if recs[p].pendingAsyncDependencies == 0 {
      x := p;
      ReachRefl(Imports(g), p);
    } else {
      var y := WaitedFor(recs, p);
      WaitedForHasNoError(g, recs, y, p);
      x := SomeBodyRuns(g, recs, y);
      ReachTrans(Imports(g), p, y, x);
    }
  }

  lemma WaitedForHasNoError(g: Graph, recs: Recs, y: Id, p: Id)
    requires Structure(g, recs, []) && Waiting(recs, y) && p in Parents(recs, y)
    requires Waiting(recs, p) && !Errored(recs, Root(recs, p))
    ensures Rooted(recs, y) && !Errored(recs, Root(recs, y)) && Order(recs, y) < Order(recs, p)
    ensures Reach(Imports(g), p, y)
  {
    hide Reach;
    assert RecordOk(g, y, recs[y], false) && RecordOk(g, p, recs[p], false);
    assert EdgeOk(g, recs, [], y, p);
  }

  lemma WaitedFor(recs: Recs, p: Id) returns (y: Id)
    requires PendingOk(recs, LiveSet(recs), p) && recs[p].pendingAsyncDependencies != 0
    ensures Waiting(recs, y) && p in Parents(recs, y)
  {
    y := OccToPositive(recs, LiveSet(recs), p, |recs|);
  }

  // ── The log, and capabilities ────────────────────────────────────────────

  function EventCount(log: seq<Event>, e: Event): nat {
    if log == [] then 0 else EventCount(log[..|log|-1], e) + (if log[|log|-1] == e then 1 else 0)
  }

  /** Every module below `x`'s request `v` had completed when the first `k` events had happened. */
  ghost predicate CompletedBelow(g: Graph, log: seq<Event>, k: nat, v: Id) {
    forall y: Id | Reach(Imports(g), v, y) :: k <= |log| && Completed(y) in log[..k]
  }

  /** When the body of `x` is entered after `k` events, each request outside its own
      import cycle, and all that request reaches, has completed. */
  ghost predicate StartInOrder(g: Graph, log: seq<Event>, k: nat, x: Id) {
    forall v: Id {:trigger CompletedBelow(g, log, k, v)} | v in g.Requested(x) && !MutualReach(Imports(g), x, v) ::
      CompletedBelow(g, log, k, v)
  }

  /** A module completes only after its body has been entered. */
  ghost predicate BegunFirst(log: seq<Event>) {
    forall k | 0 <= k < |log| && log[k].Completed? :: Began(log[k].m) in log[..k]
  }

  ghost predicate StartsInOrder(g: Graph, log: seq<Event>) {
    && BegunFirst(log)
    && forall k: nat, x: Id {:trigger StartInOrder(g, log, k, x)} | k < |log| && log[k] == Began(x) :: StartInOrder(g, log, k, x)
  }

  /** Each body is entered at most once. */
  ghost predicate BeganOk(r: Rec, log: seq<Event>, x: Id) {
    EventCount(log, Began(x)) == (if r.body.Unstarted? then 0 else 1)
  }

  /** What is over without an error has completed. */
  ghost predicate CompletionOk(r: Rec, log: seq<Event>, x: Id) {
    r.body.Over? && !r.hasError ==> Completed(x) in log
  }

  predicate Settled(c: Capability) { c.Resolved? || c.Rejected? }

  /** A capability is settled at most once. */
  ghost predicate SettledOnce(r: Rec, log: seq<Event>, x: Id) {
    EventCount(log, CapabilityResolved(x)) + EventCount(log, CapabilityRejected(x)) == (if Settled(r.topLevelCapability) then 1 else 0)
  }

  /** A capability says what has become of its module. */
  ghost predicate CapabilityOk(g: Graph, r: Rec, x: Id) {
    && (r.topLevelCapability.Pending? ==> r.status.EvaluatingAsync? && r.cycleRoot == Some(x))
    && (r.topLevelCapability.Resolved? ==> r.body.Over? && !r.hasError && (g.Cyclic(x) ==> r.status.Evaluated?))
    && (r.topLevelCapability.Rejected? ==> r.hasError && r.error == r.topLevelCapability.error)
    && (g.Cyclic(x) && !Visited(r.status) ==> r.topLevelCapability.NoCapability?)
  }

  /** The log of module `x`, up to the completion of `skip`. */
  ghost predicate LoggedAt(g: Graph, st: State, skip: Option<Id>, x: Id) {
    x < |st.recs| ==>
      && BeganOk(st.recs[x], st.log, x) && SettledOnce(st.recs[x], st.log, x)
      && (skip != Some(x) ==> CompletionOk(st.recs[x], st.log, x) && CapabilityOk(g, st.recs[x], x))
  }

  /** The log agrees with the records; the module `skip`, if any, is in the middle of a step. */
  ghost predicate BooksBut(g: Graph, st: State, skip: Option<Id>) {
    && (forall x: Id {:trigger LoggedAt(g, st, skip, x)} :: LoggedAt(g, st, skip, x))
    && StartsInOrder(g, st.log) && OrdersBelow(st.recs, st.asyncOrder)
  }

  ghost predicate Books(g: Graph, st: State) { BooksBut(g, st, None) }

  lemma CountNote(log: seq<Event>, e: Event, f: Event)
    ensures EventCount(log + [e], f) == EventCount(log, f) + (if e == f then 1 else 0)
  {
    assert (log + [e])[..|log|] == log;
  }

  lemma {:induction false} CountedIsLogged(log: seq<Event>, e: Event)
    requires EventCount(log, e) > 0
    ensures e in log
  {
    if log[|log|-1] != e {
      CountedIsLogged(log[..|log|-1], e);
      assert e in log[..|log|-1];
    }
  }

  lemma NoteStarts(g: Graph, log: seq<Event>, e: Event)
    requires StartsInOrder(g, log)
    requires e.Began? ==> StartInOrder(g, log, |log|, e.m)
    requires e.Completed? ==> Began(e.m) in log
    ensures StartsInOrder(g, log + [e])
  {
    hide Reach;
    var log1 := log + [e];
    forall k | 0 <= k < |log1| && log1[k].Completed? ensures Began(log1[k].m) in log1[..k] {
      assert log1[..k] == log[..k];
      assert log[..|log|] == log;
    }
    forall k: nat, x: Id | k < |log1| && log1[k] == Began(x) ensures StartInOrder(g, log1, k, x) {
      assert log1[..k] == log[..k];
      assert StartInOrder(g, log, k, x);
      forall v: Id | v in g.Requested(x) && !MutualReach(Imports(g), x, v) ensures CompletedBelow(g, log1, k, v) {
        assert CompletedBelow(g, log, k, v);
      }
    }
  }

  /** A finished module, and everything it reaches, is in the log of completions. */
  lemma FinishedIsLogged(g: Graph, recs: Recs, s: seq<Id>, log: seq<Event>, v: Id, bound: nat)
    requires Structure(g, recs, s) && OrdersBelow(recs, bound)
    requires forall x: Id {:trigger CompletionOk(recs[x], log, x)} | x < |recs| :: CompletionOk(recs[x], log, x)
    requires Finished(g, recs, v)
    ensures CompletedBelow(g, log, |log|, v)
  {
    assert log[..|log|] == log;
    forall y: Id | Reach(Imports(g), v, y) ensures Completed(y) in log {
      FinishedReach(g, recs, s, v, y, bound);
      hide Reach;
      assert RecordOk(g, y, recs[y], y in s);
      assert CompletionOk(recs[y], log, y);
    }
  }
}
