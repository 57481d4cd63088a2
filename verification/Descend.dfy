/** The depth-first phase of Evaluate: bodies are started, parents registered,
    components popped, and an error unwinds the stack. */
module Descend {
  import opened ModuleGraph
  import opened Reachability
  import opened Records
  import opened Evaluation
  import opened AsyncState
  import opened Scc
  import Linker
  import Wake

  // ── What holds in the middle of an evaluation ────────────────────────────

  /** The records an evaluation has nothing more to do for. */
  ghost function Gone(g: Graph, recs: Recs): set<Id> {
    set x | x in IdsBelow(|recs|) && (!g.Cyclic(x) || Rooted(recs, x))
  }

  ghost function View(g: Graph, recs: Recs, s: seq<Id>): Dfs {
    Dfs(Gone(g, recs), s, Linker.Indices(recs), Linker.AncestorIndices(recs))
  }

  /** The modules whose parent lists count: unsettled ones, and asynchronous ones on the stack. */
  ghost function LiveOn(recs: Recs, s: seq<Id>): set<Id> {
    set x | x in IdsBelow(|recs|) && (Waiting(recs, x) || (x in s && Async(recs, x)))
  }

  /** A call still in its loop. */
  ghost predicate GrayOk(recs: Recs, x: Id) {
    x < |recs| && !recs[x].asyncEvaluation && recs[x].body.Unstarted? && recs[x].asyncParentModules == []
  }

  /** A call that has returned and waits on the stack for its component. */
  ghost predicate BlackOk(recs: Recs, x: Id) {
    x < |recs| &&
    if recs[x].asyncEvaluation then StartOk(recs, x)
    else recs[x].body.Over? && recs[x].asyncParentModules == [] && recs[x].pendingAsyncDependencies == 0
  }

  ghost predicate StackMet(g: Graph, recs: Recs, s: seq<Id>, x: Id, y: Id) {
    if g.Cyclic(y) then y in s || Waits(recs, x, y) else SyntheticDone(recs, y)
  }

  ghost predicate BlackMet(g: Graph, recs: Recs, s: seq<Id>, gray: set<Id>) {
    forall x: Id, y: Id {:trigger StackMet(g, recs, s, x, y)} | x in s && x !in gray && y in g.Requested(x) :: StackMet(g, recs, s, x, y)
  }

  /** Some parent of `x` is below it on the stack. */
  ghost predicate Anchored(recs: Recs, s: seq<Id>, x: Id) {
    exists p :: p in Parents(recs, x) && p in s
  }

  ghost predicate BlackAnchored(recs: Recs, s: seq<Id>, gray: set<Id>, skip: Option<Id>) {
    forall x: Id {:trigger Anchored(recs, s, x)} | x in s && x !in gray && Async(recs, x) && skip != Some(x) :: Anchored(recs, s, x)
  }

  ghost predicate StackOk(recs: Recs, s: seq<Id>, gray: set<Id>) {
    && (forall x | x in s && x in gray :: GrayOk(recs, x))
    && (forall x | x in s && x !in gray :: BlackOk(recs, x))
  }

  ghost predicate CountsOn(recs: Recs, s: seq<Id>) {
    && (forall p: Id {:trigger PendingOk(recs, LiveOn(recs, s), p)} | Wake.Eligible(recs, p) || p in s :: PendingOk(recs, LiveOn(recs, s), p))
    && (forall p: Id {:trigger StartOk(recs, p)} | Wake.Eligible(recs, p) :: StartOk(recs, p))
  }

  ghost predicate ReachesTLA(g: Graph, x: Id) {
    exists y :: Reach(Imports(g), x, y) && g.HasTLA(y)
  }

  /** Only modules with top-level await below them ever become asynchronous. */
  ghost predicate AsyncReachesTLA(g: Graph, recs: Recs) {
    forall x: Id {:trigger ReachesTLA(g, x)} | Async(recs, x) :: ReachesTLA(g, x)
  }

  /** The log of module `x` while the evaluation of `t` is in progress. */
  ghost predicate EntryOk(g: Graph, st: State, t: Id, x: Id) {
    x < |st.recs| ==>
      && BeganOk(st.recs[x], st.log, x) && SettledOnce(st.recs[x], st.log, x)
      && (if x == t then st.recs[x].topLevelCapability.Pending? else CapabilityOk(g, st.recs[x], x))
  }

  ghost predicate Entries(g: Graph, st: State, t: Id) {
    && (forall x: Id {:trigger EntryOk(g, st, t, x)} :: EntryOk(g, st, t, x))
    && StartsInOrder(g, st.log) && OrdersBelow(st.recs, st.asyncOrder)
  }

  ghost predicate Completions(st: State) {
    forall x: Id {:trigger CompletionOk(st.recs[x], st.log, x)} | x < |st.recs| :: CompletionOk(st.recs[x], st.log, x)
  }

  /** The evaluation of `t` is in progress with stack `s`; calls for `gray` are in their
      loops, and `skip` has returned to a caller that has not registered with it yet. */
  ghost predicate Evaluates(g: Graph, st: State, s: seq<Id>, gray: set<Id>, skip: Option<Id>, t: Id) {
    && Structure(g, st.recs, s)
    && StackOk(st.recs, s, gray)
    && BlackMet(g, st.recs, s, gray)
    && BlackAnchored(st.recs, s, gray, skip)
    && CountsOn(st.recs, s)
    && StartedFree(st.recs)
    && AsyncReachesTLA(g, st.recs)
    && Entries(g, st, t) && Completions(st)
  }

  /** What an error finds when it unwinds the stack `s`. */
  ghost predicate Thrown(g: Graph, st: State, s: seq<Id>, t: Id) {
    && Structure(g, st.recs, s)
    && CountsOn(st.recs, s)
    && StartedFree(st.recs)
    && AsyncReachesTLA(g, st.recs)
    && Entries(g, st, t)
    && (forall x: Id {:trigger CompletionOk(st.recs[x], st.log, x)} | x < |st.recs| && x !in s :: CompletionOk(st.recs[x], st.log, x))
  }

  // ── How a call changes what was there before ─────────────────────────────

  /** What a step may do to a record: the body is entered once, and with it a module
      compiled as a plain function gets its environment; what has settled stays as it is. */
  ghost predicate Evolves(a: Rec, b: Rec) {
    && b.imp == a.imp && b.code == a.code
    && (Linker.Past(a.status) ==> Linker.Past(b.status))
    && (!a.body.Unstarted? ==> !b.body.Unstarted? && b.getters == a.getters)
    && (b.body.Unstarted? || a.code.Generator? ==> b.getters == a.getters)
    && (a.body.Unstarted? && !b.body.Unstarted? && a.code.Plain? ==> b.getters.Some?)
    && (a.status.Evaluated? ==> b.status.Evaluated? && b.hasError == a.hasError && b.error == a.error)
    && (a.status.Evaluated? && b.body != a.body ==> a.body.Running? && b.body.Over?)
  }

  ghost predicate EvolvesAt(r0: Recs, r1: Recs, x: Id) {
    x < |r0| && x < |r1| ==> Evolves(r0[x], r1[x])
  }

  ghost predicate EvolvesAll(r0: Recs, r1: Recs) {
    |r0| == |r1| && forall x: Id {:trigger EvolvesAt(r0, r1, x)} :: EvolvesAt(r0, r1, x)
  }

  lemma EvolvesTrans(r0: Recs, r1: Recs, r2: Recs)
    requires EvolvesAll(r0, r1) && EvolvesAll(r1, r2)
    ensures EvolvesAll(r0, r2)
  {
    forall x: Id ensures EvolvesAt(r0, r2, x) { assert EvolvesAt(r0, r1, x) && EvolvesAt(r1, r2, x); }
  }

  lemma EvolvesRefl(r: Recs)
    ensures EvolvesAll(r, r)
  {
    forall x: Id ensures EvolvesAt(r, r, x) {}
  }

  ghost predicate GrowsAt(r0: Recs, r1: Recs, s0: seq<Id>, s1: seq<Id>, x: Id) {
    && EvolvesAt(r0, r1, x)
    && (Rooted(r0, x) ==> Rooted(r1, x) && Root(r1, x) == Root(r0, x))
    && (Fine(r0, x) ==> Fine(r1, x))
    && (SyntheticDone(r0, x) ==> SyntheticDone(r1, x))
    && (forall p | p in Parents(r0, x) :: p in Parents(r1, x))
    && (x in s0 ==> forall p | p in Parents(r1, x) :: p in Parents(r0, x) || (|s0| <= |s1| && p in s1[|s0|..]))
  }

  ghost predicate Grows(r0: Recs, r1: Recs, s0: seq<Id>, s1: seq<Id>) {
    |r0| == |r1| && s0 <= s1 && forall x: Id {:trigger GrowsAt(r0, r1, s0, s1, x)} :: GrowsAt(r0, r1, s0, s1, x)
  }

  /** The entries above `base` have only each other as parents. */
  ghost predicate ParentsAbove(recs: Recs, s: seq<Id>, base: nat) {
    base <= |s| && forall x, p | x in s[base..] && p in Parents(recs, x) :: p in s[base..]
  }

  lemma GrowsEvolves(r0: Recs, r1: Recs, s0: seq<Id>, s1: seq<Id>)
    requires Grows(r0, r1, s0, s1)
    ensures EvolvesAll(r0, r1)
  {
    hide EvolvesAt;
    forall x: Id ensures EvolvesAt(r0, r1, x) { assert GrowsAt(r0, r1, s0, s1, x); }
  }

  lemma GrowsTrans(r0: Recs, r1: Recs, r2: Recs, s0: seq<Id>, s1: seq<Id>, s2: seq<Id>)
    requires Grows(r0, r1, s0, s1) && Grows(r1, r2, s1, s2)
    ensures Grows(r0, r2, s0, s2)
  {
    forall x: Id ensures GrowsAt(r0, r2, s0, s2, x) {
      assert GrowsAt(r0, r1, s0, s1, x) && GrowsAt(r1, r2, s1, s2, x);
      if x in s0 {
        assert x in s1 by { var k :| 0 <= k < |s0| && s0[k] == x; assert s1[k] == x; }
        forall p | p in Parents(r2, x) ensures p in Parents(r0, x) || p in s2[|s0|..] {
          if p !in Parents(r1, x) {
            var k :| 0 <= k < |s2| - |s1| && s2[|s1|..][k] == p;
            assert s2[|s0|..][|s1| - |s0| + k] == p;
          } else if p !in Parents(r0, x) {
            var k :| 0 <= k < |s1| - |s0| && s1[|s0|..][k] == p;
            assert s2[|s0|..][k] == p;
          }
        }
      }
    }
  }

  lemma GrowsRefl(r: Recs, s: seq<Id>)
    ensures Grows(r, r, s, s)
  {
    forall x: Id ensures GrowsAt(r, r, s, s, x) {}
  }

  // ── Entering a call ──────────────────────────────────────────────────────

  lemma EnterFacts(g: Graph, recs: Recs, s: seq<Id>, m: Id, index: int)
    requires RecordsOk(g, recs, s) && g.Cyclic(m) && m < |recs| && !Visited(recs[m].status)
    ensures var r1 := recs[m := Entered(recs[m], index)];
      && RecordsOk(g, r1, s + [m]) && m !in s && !Rooted(recs, m) && Parents(recs, m) == []
      && (forall x: Id :: Waiting(r1, x) == Waiting(recs, x) && Errored(r1, x) == Errored(recs, x))
      && (forall x: Id :: Fine(r1, x) == Fine(recs, x) && Rooted(r1, x) == Rooted(recs, x) && Root(r1, x) == Root(recs, x))
      && (forall x: Id :: Parents(r1, x) == Parents(recs, x) && Order(r1, x) == Order(recs, x) && Async(r1, x) == Async(recs, x))
      && (forall x: Id :: SyntheticDone(r1, x) == SyntheticDone(recs, x))
      && GrayOk(r1, m)
  {
    assert RecordOk(g, m, recs[m], m in s);
    InPush(s, m);
    var r1 := recs[m := Entered(recs[m], index)];
    forall x: Id | x < |recs| ensures RecordOk(g, x, r1[x], x in s + [m]) {
      assert RecordOk(g, x, recs[x], x in s);
    }
  }

  lemma EnterStructure(g: Graph, recs: Recs, s: seq<Id>, m: Id, index: int)
    requires Structure(g, recs, s) && g.Cyclic(m) && m < |recs| && !Visited(recs[m].status)
    ensures Structure(g, recs[m := Entered(recs[m], index)], s + [m])
  {
    var r1 := recs[m := Entered(recs[m], index)];
    EnterFacts(g, recs, s, m, index);
    InPush(s, m);
    hide Reach, RecordsOk, RecordOk, GrayOk;
    forall x: Id | Rooted(r1, x) ensures RootOk(g, r1, x) { assert RootOk(g, recs, x); }
    forall x: Id, y: Id | Rooted(r1, x) && y in g.Requested(x) ensures RequestMet(g, r1, x, y) {
      assert RequestMet(g, recs, x, y);
    }
    forall x: Id, p: Id | p in Parents(r1, x) && (Rooted(r1, x) || x in s + [m]) ensures EdgeOk(g, r1, s + [m], x, p) {
      assert EdgeOk(g, recs, s, x, p);
    }
    forall x: Id | Rooted(r1, x) && Root(r1, x) != x && (Waiting(r1, x) || Errored(r1, x))
      ensures HasCycleParent(r1, x)
    {
      assert HasCycleParent(recs, x);
      var p :| p in Parents(recs, x) && Rooted(recs, p) && Root(recs, p) == Root(recs, x);
      assert p in Parents(r1, x) && Rooted(r1, p) && Root(r1, p) == Root(r1, x);
    }
  }

  /** A module that has not been visited is nobody's parent among the live. */
  lemma FreshUncounted(g: Graph, recs: Recs, s: seq<Id>, m: Id)
    requires Structure(g, recs, s) && g.Cyclic(m) && m < |recs| && !Visited(recs[m].status)
    ensures Occ(recs, LiveOn(recs, s), m) == 0
  {
    EnterFacts(g, recs, s, m, 0);
    hide Reach;
    forall x: Id | x < |recs| && x in LiveOn(recs, s) ensures m !in Parents(recs, x) {
      assert RecordOk(g, x, recs[x], x in s);
      assert m in Parents(recs, x) ==> EdgeOk(g, recs, s, x, m);
    }
    OccZero(recs, LiveOn(recs, s), m);
  }

  lemma EnterCounts(g: Graph, recs: Recs, s: seq<Id>, m: Id, index: int)
    requires Structure(g, recs, s) && g.Cyclic(m) && m < |recs| && !Visited(recs[m].status)
    requires CountsOn(recs, s) && StartedFree(recs)
    ensures CountsOn(recs[m := Entered(recs[m], index)], s + [m]) && StartedFree(recs[m := Entered(recs[m], index)])
  {
    var r1 := recs[m := Entered(recs[m], index)];
    EnterFacts(g, recs, s, m, index);
    FreshUncounted(g, recs, s, m);
    InPush(s, m);
    hide Structure, RecordsOk, RecordOk, Occ;
    assert LiveOn(r1, s + [m]) == LiveOn(recs, s);
    var live := LiveOn(recs, s);
    hide LiveOn;
    forall p: Id | Wake.Eligible(r1, p) || p in s + [m] ensures PendingOk(r1, live, p) {
      OccSame(recs, r1, live, live, p);
      if p != m { assert PendingOk(recs, live, p); }
    }
    forall p: Id | Wake.Eligible(r1, p) ensures StartOk(r1, p) {
      assert StartOk(recs, p) && Wake.Eligible(recs, p);
      assert p != m by { hide *; assert !Visited(recs[m].status); }
    }
  }

  lemma EnterStack(g: Graph, recs: Recs, s: seq<Id>, gray: set<Id>, m: Id, index: int)
    requires RecordsOk(g, recs, s) && g.Cyclic(m) && m < |recs| && !Visited(recs[m].status)
    requires StackOk(recs, s, gray) && BlackMet(g, recs, s, gray) && BlackAnchored(recs, s, gray, None)
    requires m !in gray
    ensures var r1 := recs[m := Entered(recs[m], index)];
      StackOk(r1, s + [m], gray + {m}) && BlackMet(g, r1, s + [m], gray + {m}) && BlackAnchored(r1, s + [m], gray + {m}, None)
  {
    var r1 := recs[m := Entered(recs[m], index)];
    EnterFacts(g, recs, s, m, index);
    InPush(s, m);
    hide RecordsOk;
    forall x | x in s + [m] && x in gray + {m} ensures GrayOk(r1, x) { if x != m { assert GrayOk(recs, x); } }
    forall x | x in s + [m] && x !in gray + {m} ensures BlackOk(r1, x) { assert BlackOk(recs, x); }
    forall x: Id, y: Id | x in s + [m] && x !in gray + {m} && y in g.Requested(x)
      ensures StackMet(g, r1, s + [m], x, y)
    {
      assert StackMet(g, recs, s, x, y);
    }
    forall x: Id | x in s + [m] && x !in gray + {m} && Async(r1, x) ensures Anchored(r1, s + [m], x) {
      assert Anchored(recs, s, x);
      var p :| p in Parents(recs, x) && p in s;
      assert p in Parents(r1, x) && p in s + [m];
    }
  }

  lemma EnterEntries(g: Graph, st: State, m: Id, index: int, t: Id)
    requires Entries(g, st, t) && Completions(st) && m < |st.recs| && AsyncReachesTLA(g, st.recs)
    requires g.Cyclic(m) && !Visited(st.recs[m].status)
    requires RecordOk(g, m, st.recs[m], false)
    ensures var st1 := Put(st, m, Entered(st.recs[m], index)); Entries(g, st1, t) && Completions(st1) && AsyncReachesTLA(g, st1.recs)
  {
    var st1 := Put(st, m, Entered(st.recs[m], index));
    hide StartsInOrder, ReachesTLA;
    forall x: Id ensures EntryOk(g, st1, t, x) { assert EntryOk(g, st, t, x); }
    forall x: Id | x < |st1.recs|
      ensures CompletionOk(st1.recs[x], st1.log, x)
    {
      assert CompletionOk(st.recs[x], st.log, x);
    }
    forall x: Id | Async(st1.recs, x) ensures ReachesTLA(g, x) { assert Async(st.recs, x); }
  }

  // ── The state of a call in its loop, and of a call that is over ──────────

  ghost predicate CallLooping(g: Graph, st0: State, s0: seq<Id>, st: State, s: seq<Id>, gray: set<Id>, m: Id, i: nat,
                              index: int, t: Id) {
    && Evaluates(g, st, s, gray + {m}, None, t)
    && Looping(Imports(g), View(g, st.recs, s), gray, |s0|, m, i)
    && Extends(View(g, st0.recs, s0), View(g, st.recs, s))
    && Grows(st0.recs, st.recs, s0, s) && st0.log <= st.log
    && ParentsAbove(st.recs, s, |s0|)
    && m < |st.recs| && g.Cyclic(m)
    && (forall j | 0 <= j < i && j < |g.Requested(m)| :: StackMet(g, st.recs, s, m, g.Requested(m)[j]))
    && (forall x | x in s :: At(Linker.Indices(st.recs), x) < index)
  }

  ghost predicate CallDone(g: Graph, st0: State, s0: seq<Id>, st: State, s: seq<Id>, gray: set<Id>, m: Id, index: int,
                           t: Id) {
    && Evaluates(g, st, s, gray, Some(m), t)
    && Returned(Imports(g), View(g, st0.recs, s0), View(g, st.recs, s), gray, m)
    && Grows(st0.recs, st.recs, s0, s) && st0.log <= st.log
    && ParentsAbove(st.recs, s, |s0|)
    && (!g.Cyclic(m) ==> SyntheticDone(st.recs, m))
    && (forall x | x in s :: At(Linker.Indices(st.recs), x) < index)
  }

  /** What a call for `v` may assume when it is entered. */
  ghost predicate MayEnter(g: Graph, st: State, s: seq<Id>, gray: set<Id>, v: Id, index: int, t: Id) {
    && v < |st.recs|
    && Evaluates(g, st, s, gray, None, t)
    && Searching(Imports(g), View(g, st.recs, s), gray)
    && (forall x | x in s :: At(Linker.Indices(st.recs), x) < index && Reach(Imports(g), x, v))
  }

  lemma ViewEnter(g: Graph, r: Recs, s: seq<Id>, m: Id, index: int)
    requires |r| == |g.mods| && m < |r| && g.Cyclic(m)
    ensures View(g, r[m := Entered(r[m], index)], s + [m]) == Push(View(g, r, s), m, index)
  {
    GoneKept(g, r, m, Entered(r[m], index));
    hide Gone, Linker.Indices, Linker.AncestorIndices;
    Linker.IndicesUpdate(r, m, Entered(r[m], index));
    Linker.AncestorIndicesUpdate(r, m, Entered(r[m], index));
  }

  lemma GoneKept(g: Graph, r: Recs, m: Id, rec: Rec)
    requires m < |r| && rec.cycleRoot == r[m].cycleRoot
    ensures Gone(g, r[m := rec]) == Gone(g, r)
  {
  }

  lemma ViewKept(g: Graph, r: Recs, s: seq<Id>, m: Id, rec: Rec)
    requires
      && m < |r|
      && rec.cycleRoot == r[m].cycleRoot
      && rec.dfsIndex == r[m].dfsIndex
      && rec.dfsAncestorIndex == r[m].dfsAncestorIndex
    ensures View(g, r[m := rec], s) == View(g, r, s)
  {
    GoneKept(g, r, m, rec);
    hide Gone, Linker.Indices, Linker.AncestorIndices;
    Linker.IndicesUpdate(r, m, rec);
    Linker.AncestorIndicesUpdate(r, m, rec);
  }

  lemma EnterGrows(g: Graph, recs: Recs, s: seq<Id>, m: Id, index: int)
    requires RecordsOk(g, recs, s) && g.Cyclic(m) && m < |recs| && !Visited(recs[m].status)
    ensures var r1 := recs[m := Entered(recs[m], index)];
      Grows(recs, r1, s, s + [m]) && ParentsAbove(r1, s + [m], |s|)
  {
    var r1 := recs[m := Entered(recs[m], index)];
    EnterFacts(g, recs, s, m, index);
    hide RecordsOk;
    forall x: Id ensures GrowsAt(recs, r1, s, s + [m], x) {}
    assert (s + [m])[|s|..] == [m];
  }

  lemma EnterEvaluates(g: Graph, st: State, s: seq<Id>, gray: set<Id>, m: Id, index: int, t: Id)
    requires Evaluates(g, st, s, gray, None, t)
    requires g.Cyclic(m) && m < |st.recs| && !Visited(st.recs[m].status) && m !in gray
    ensures Evaluates(g, Put(st, m, Entered(st.recs[m], index)), s + [m], gray + {m}, None, t)
  {
    assert RecordOk(g, m, st.recs[m], false) by { EnterFacts(g, st.recs, s, m, index); assert RecordOk(g, m, st.recs[m], m in s); }
    EnterStructure(g, st.recs, s, m, index);
    EnterCounts(g, st.recs, s, m, index);
    EnterStack(g, st.recs, s, gray, m, index);
    EnterEntries(g, st, m, index, t);
    hide Structure, StackOk, BlackMet, BlackAnchored, CountsOn, StartedFree, AsyncReachesTLA, Entries, Completions;
  }

  lemma EnterCall(g: Graph, st: State, s: seq<Id>, gray: set<Id>, m: Id, index: int, t: Id)
    requires MayEnter(g, st, s, gray, m, index, t)
    requires g.Cyclic(m) && !Visited(st.recs[m].status)
    ensures CallLooping(g, st, s, Put(st, m, Entered(st.recs[m], index)), s + [m], gray, m, 0, index + 1, t)
  {
    EnterFacts(g, st.recs, s, m, index);
    assert m !in s && m !in Gone(g, st.recs) && m !in gray;
    hide StackOk, BlackMet, BlackAnchored, CountsOn, StartedFree, AsyncReachesTLA, Entries, Completions, RootsOk,
         RequestsMet, EdgesUp, ErrorsUp, CycleParents, Reach;
    EnterEvaluates(g, st, s, gray, m, index, t);
    EnterGrows(g, st.recs, s, m, index);
    ViewEnter(g, st.recs, s, m, index);
    hide RecordsOk;
    Enter(Imports(g), View(g, st.recs, s), gray, m, index);
    EnterIndices(st.recs, s, m, index);
    hide Looping, Extends, Searching, Grows, ParentsAbove, Evaluates;
  }

  lemma EnterIndices(recs: Recs, s: seq<Id>, m: Id, index: int)
    requires m < |recs| && forall x | x in s :: At(Linker.Indices(recs), x) < index
    ensures forall x | x in s + [m] :: At(Linker.Indices(recs[m := Entered(recs[m], index)]), x) < index + 1
  {
    Linker.IndicesUpdate(recs, m, Entered(recs[m], index));
    hide Linker.Indices;
  }

  // ── Registering with an asynchronous dependency ──────────────────────────

  ghost predicate MayRegister(g: Graph, recs: Recs, s: seq<Id>, m: Id, z: Id) {
    && m in s && GrayOk(recs, m) && g.Cyclic(m) && Reach(Imports(g), m, z)
    && (if z in s then z in g.Requested(m) else Rooted(recs, z) && Root(recs, z) == z && !Errored(recs, z))
  }

  ghost function Registered(recs: Recs, m: Id, z: Id): Recs
    requires m < |recs| && z < |recs|
  {
    var r1 := recs[m := recs[m].(pendingAsyncDependencies := recs[m].pendingAsyncDependencies + 1)];
    r1[z := r1[z].(asyncParentModules := r1[z].asyncParentModules + [m])]
  }

  lemma RegisterFacts(g: Graph, recs: Recs, s: seq<Id>, m: Id, z: Id)
    requires RecordsOk(g, recs, s) && MayRegister(g, recs, s, m, z) && Async(recs, z)
    ensures m < |recs| && z < |recs| && m != z
    ensures var r1 := Registered(recs, m, z);
      && RecordsOk(g, r1, s)
      && (forall x: Id :: Waiting(r1, x) == Waiting(recs, x) && Errored(r1, x) == Errored(recs, x))
      && (forall x: Id :: Fine(r1, x) == Fine(recs, x) && Rooted(r1, x) == Rooted(recs, x) && Root(r1, x) == Root(recs, x))
      && (forall x: Id :: Parents(r1, x) == if x == z then Parents(recs, z) + [m] else Parents(recs, x))
      && (forall x: Id :: Order(r1, x) == Order(recs, x) && Async(r1, x) == Async(recs, x))
      && (forall x: Id :: SyntheticDone(r1, x) == SyntheticDone(recs, x))
      && (forall x: Id | x < |recs| :: r1[x].body == recs[x].body)
      && (forall x: Id | x < |recs| :: r1[x].pendingAsyncDependencies == recs[x].pendingAsyncDependencies + (if x == m then 1 else 0))
  {
    var r1 := Registered(recs, m, z);
    assert RecordOk(g, m, recs[m], m in s) && RecordOk(g, z, recs[z], z in s);
    forall x: Id | x < |recs| ensures RecordOk(g, x, r1[x], x in s) { assert RecordOk(g, x, recs[x], x in s); }
  }

  lemma RegisterStructure(g: Graph, recs: Recs, s: seq<Id>, m: Id, z: Id)
    requires Structure(g, recs, s) && MayRegister(g, recs, s, m, z) && Async(recs, z)
    requires m < |recs| && z < |recs|
    ensures Structure(g, Registered(recs, m, z), s)
  {
    var r1 := Registered(recs, m, z);
    RegisterFacts(g, recs, s, m, z);
    assert RecordOk(g, z, recs[z], z in s);
    assert RecordOk(g, m, recs[m], m in s);
    hide Reach, RecordsOk, RecordOk, Registered;
    forall x: Id | Rooted(r1, x) ensures RootOk(g, r1, x) { assert RootOk(g, recs, x); }
    forall x: Id, y: Id | Rooted(r1, x) && y in g.Requested(x) ensures RequestMet(g, r1, x, y) {
      assert RequestMet(g, recs, x, y);
    }
    RegisterEdges(g, recs, s, m, z);
    hide EdgesUp;
    forall x: Id | Rooted(r1, x) && Root(r1, x) != x && (Waiting(r1, x) || Errored(r1, x))
      ensures HasCycleParent(r1, x)
    {
      assert HasCycleParent(recs, x);
      var p :| p in Parents(recs, x) && Rooted(recs, p) && Root(recs, p) == Root(recs, x);
      assert p in Parents(r1, x) && Rooted(r1, p) && Root(r1, p) == Root(r1, x);
    }
  }

  lemma RegisterEdges(g: Graph, recs: Recs, s: seq<Id>, m: Id, z: Id)
    requires RecordsOk(g, recs, s) && EdgesUp(g, recs, s) && MayRegister(g, recs, s, m, z) && Async(recs, z)
    requires m < |recs| && z < |recs|
    ensures EdgesUp(g, Registered(recs, m, z), s)
  {
    var r1 := Registered(recs, m, z);
    RegisterFacts(g, recs, s, m, z);
    assert RecordOk(g, z, recs[z], z in s);
    assert RecordOk(g, m, recs[m], m in s);
    hide Reach, RecordsOk, RecordOk, Registered;
    forall x: Id, p: Id | p in Parents(r1, x) && (Rooted(r1, x) || x in s) ensures EdgeOk(g, r1, s, x, p) {
      if p in Parents(recs, x) { assert EdgeOk(g, recs, s, x, p); }
    }
  }

  lemma RegisterCounts(g: Graph, recs: Recs, s: seq<Id>, m: Id, z: Id)
    requires RecordsOk(g, recs, s) && MayRegister(g, recs, s, m, z) && Async(recs, z)
    requires m < |recs| && z < |recs|
    requires CountsOn(recs, s) && StartedFree(recs)
    ensures CountsOn(Registered(recs, m, z), s) && StartedFree(Registered(recs, m, z))
  {
    var r1 := Registered(recs, m, z);
    RegisterFacts(g, recs, s, m, z);
    assert RecordOk(g, z, recs[z], z in s) && RecordOk(g, m, recs[m], m in s);
    var live := LiveOn(recs, s);
    assert LiveOn(r1, s) == live && z in live;
    hide RecordsOk, Occ, Registered, LiveOn;
    forall p: Id | Wake.Eligible(r1, p) || p in s ensures PendingOk(r1, live, p) {
      assert PendingOk(recs, live, p);
      OccRemove(recs, live, z, p);
      OccRemove(r1, live, z, p);
      CountAppend(Parents(recs, z), m, p);
      OccSame(recs, r1, live - {z}, live - {z}, p);
    }
    forall p: Id | Wake.Eligible(r1, p) ensures StartOk(r1, p) { assert StartOk(recs, p); }
    forall x: Id, p: Id | Waiting(r1, x) && p in Parents(r1, x) && p < |r1| && !r1[p].body.Unstarted?
      ensures !Waiting(r1, p)
    {
    }
  }

  lemma RegisterStack(g: Graph, recs: Recs, s: seq<Id>, gray: set<Id>, m: Id, z: Id, v: Id)
    requires RecordsOk(g, recs, s) && MayRegister(g, recs, s, m, z) && Async(recs, z)
    requires m < |recs| && z < |recs| && m in gray
    requires StackOk(recs, s, gray) && BlackMet(g, recs, s, gray) && BlackAnchored(recs, s, gray, Some(v))
    requires v in s ==> z == v
    ensures var r1 := Registered(recs, m, z);
      StackOk(r1, s, gray) && BlackMet(g, r1, s, gray) && BlackAnchored(r1, s, gray, None)
  {
    var r1 := Registered(recs, m, z);
    RegisterFacts(g, recs, s, m, z);
    hide RecordsOk, Registered;
    forall x | x in s && x in gray ensures GrayOk(r1, x) { assert GrayOk(recs, x); }
    forall x | x in s && x !in gray ensures BlackOk(r1, x) { assert BlackOk(recs, x); }
    forall x: Id, y: Id | x in s && x !in gray && y in g.Requested(x) ensures StackMet(g, r1, s, x, y) {
      assert StackMet(g, recs, s, x, y);
    }
    forall x: Id | x in s && x !in gray && Async(r1, x) ensures Anchored(r1, s, x) {
      if x == z {
        assert m in Parents(r1, x);
      } else {
        assert Anchored(recs, s, x);
        var p :| p in Parents(recs, x) && p in s;
      }
    }
  }

  lemma RegisterEntries(g: Graph, st: State, m: Id, z: Id, t: Id)
    requires
      && Entries(g, st, t)
      && Completions(st)
      && AsyncReachesTLA(g, st.recs)
      && m < |st.recs|
      && z < |st.recs|
      && m != z
    ensures var st1 := st.(recs := Registered(st.recs, m, z)); Entries(g, st1, t) && Completions(st1) && AsyncReachesTLA(g, st1.recs)
  {
    var st1 := st.(recs := Registered(st.recs, m, z));
    hide StartsInOrder, ReachesTLA;
    forall x: Id ensures EntryOk(g, st1, t, x) { assert EntryOk(g, st, t, x); }
    forall x: Id | x < |st1.recs|
      ensures CompletionOk(st1.recs[x], st1.log, x)
    {
      assert CompletionOk(st.recs[x], st.log, x);
    }
    forall x: Id | Async(st1.recs, x) ensures ReachesTLA(g, x) { assert Async(st.recs, x); }
  }

  lemma RegisterEvaluates(g: Graph, st: State, s: seq<Id>, gray: set<Id>, m: Id, z: Id, v: Id, t: Id)
    requires Evaluates(g, st, s, gray, Some(v), t) && MayRegister(g, st.recs, s, m, z) && m in gray
    requires v in s ==> z == v
    ensures Evaluates(g, Register(st, m, z), s, gray, None, t)
    ensures Async(st.recs, z) ==>
        m < |st.recs| && z < |st.recs| && m != z && Register(st, m, z) == st.(recs := Registered(st.recs, m, z))
    ensures !Async(st.recs, z) ==> Register(st, m, z) == st
  {
    if Async(st.recs, z) {
      RegisterFacts(g, st.recs, s, m, z);
      RegisterStructure(g, st.recs, s, m, z);
      RegisterCounts(g, st.recs, s, m, z);
      RegisterStack(g, st.recs, s, gray, m, z, v);
      RegisterEntries(g, st, m, z, t);
      hide Structure, StackOk, BlackMet, BlackAnchored, CountsOn, StartedFree, AsyncReachesTLA, Entries, Completions,
           RecordsOk, MayRegister;
    } else {
      hide Structure, StackOk, BlackMet, CountsOn, StartedFree, AsyncReachesTLA, Entries, Completions, MayRegister;
    }
  }

  /** Registering touches no index and no cycle root, and adds `m` to one list. */
  lemma RegisterFrame(g: Graph, recs: Recs, s: seq<Id>, m: Id, z: Id, base: nat)
    requires RecordsOk(g, recs, s) && MayRegister(g, recs, s, m, z) && Async(recs, z)
    requires m < |recs| && z < |recs|
    requires base < |s| && s[base] == m && ParentsAbove(recs, s, base)
    ensures var r1 := Registered(recs, m, z);
      && View(g, r1, s) == View(g, recs, s)
      && ParentsAbove(r1, s, base)
      && Linker.Indices(r1) == Linker.Indices(recs)
      && (forall x: Id :: GrowsTo(recs, r1, x, m))
  {
    var r1 := Registered(recs, m, z);
    RegisterFacts(g, recs, s, m, z);
    var ra := recs[m := recs[m].(pendingAsyncDependencies := recs[m].pendingAsyncDependencies + 1)];
    ViewKept(g, recs, s, m, ra[m]);
    ViewKept(g, ra, s, z, r1[z]);
    Linker.IndicesUpdate(recs, m, ra[m]);
    Linker.IndicesUpdate(ra, z, r1[z]);
    RegisterEvolves(recs, m, z);
    hide RecordsOk, View, Linker.Indices, EvolvesAt, Registered, MayRegister;
    assert s[base..][0] == m;
  }

  lemma RegisterEvolves(recs: Recs, m: Id, z: Id)
    requires m < |recs| && z < |recs|
    ensures forall x: Id :: EvolvesAt(recs, Registered(recs, m, z), x)
    ensures |Registered(recs, m, z)| == |recs|
  {
  }

  ghost predicate GrowsTo(r0: Recs, r1: Recs, x: Id, m: Id) {
    && |r0| == |r1|
    && EvolvesAt(r0, r1, x)
    && (Rooted(r0, x) ==> Rooted(r1, x) && Root(r1, x) == Root(r0, x))
    && (Fine(r0, x) ==> Fine(r1, x))
    && (SyntheticDone(r0, x) ==> SyntheticDone(r1, x))
    && (forall p | p in Parents(r0, x) :: p in Parents(r1, x))
    && (forall p | p in Parents(r1, x) :: p in Parents(r0, x) || p == m)
  }

  lemma GrowsByOne(r0: Recs, r1: Recs, r2: Recs, s0: seq<Id>, s: seq<Id>, m: Id)
    requires Grows(r0, r1, s0, s) && m in s[|s0|..] && forall x: Id :: GrowsTo(r1, r2, x, m)
    ensures Grows(r0, r2, s0, s)
  {
    assert GrowsTo(r1, r2, m, m);
    forall x: Id ensures GrowsAt(r0, r2, s0, s, x) { assert GrowsAt(r0, r1, s0, s, x) && GrowsTo(r1, r2, x, m); }
  }

  // ── Calls that return at once ────────────────────────────────────────────

  lemma AlreadyIn(g: Graph, st: State, s: seq<Id>, gray: set<Id>, v: Id, index: int, t: Id)
    requires MayEnter(g, st, s, gray, v, index, t)
    requires g.Cyclic(v) && Visited(st.recs[v].status) && !st.recs[v].hasError
    ensures CallDone(g, st, s, st, s, gray, v, index, t)
  {
    assert RecordOk(g, v, st.recs[v], v in s);
    assert v in s || v in Gone(g, st.recs);
    hide Structure, StackOk, BlackMet, CountsOn, StartedFree, AsyncReachesTLA, Entries, Completions, Searching, Reach;
    GrowsRefl(st.recs, s);
    assert s[|s|..] == [];
  }

  lemma SyntheticFacts(g: Graph, recs: Recs, s: seq<Id>, m: Id, r: Rec)
    requires RecordsOk(g, recs, s) && m < |recs| && !g.Cyclic(m)
    requires recs[m].body.Unstarted? && r == recs[m].(body := Over)
    ensures var r1 := recs[m := r];
      && RecordsOk(g, r1, s) && m !in s && !recs[m].hasError
      && (forall x: Id :: Waiting(r1, x) == Waiting(recs, x) && Errored(r1, x) == Errored(recs, x))
      && (forall x: Id :: Fine(r1, x) == Fine(recs, x) && Rooted(r1, x) == Rooted(recs, x) && Root(r1, x) == Root(recs, x))
      && (forall x: Id :: Parents(r1, x) == Parents(recs, x) && Order(r1, x) == Order(recs, x) && Async(r1, x) == Async(recs, x))
      && (forall x: Id | SyntheticDone(recs, x) :: SyntheticDone(r1, x)) && SyntheticDone(r1, m)
      && !Waiting(recs, m)
  {
    assert RecordOk(g, m, recs[m], m in s);
    var r1 := recs[m := r];
    forall x: Id | x < |recs| ensures RecordOk(g, x, r1[x], x in s) { assert RecordOk(g, x, recs[x], x in s); }
  }

  lemma SyntheticEvaluates(g: Graph, st: State, s: seq<Id>, gray: set<Id>, v: Id, t: Id)
    requires Evaluates(g, st, s, gray, None, t) && v < |st.recs| && !g.Cyclic(v) && st.recs[v].body.Unstarted?
    ensures Evaluates(g, Note(Note(Put(st, v, st.recs[v].(body := Over)), Began(v)), Completed(v)), s, gray, Some(v), t)
  {
    var st1 := Note(Note(Put(st, v, st.recs[v].(body := Over)), Began(v)), Completed(v));
    var recs, r1 := st.recs, st1.recs;
    SyntheticFacts(g, recs, s, v, r1[v]);
    Wake.PutLinks(recs, v, r1[v]);
    Wake.StructureKept(g, recs, r1, s);
    SyntheticCounts(g, recs, s, v, r1[v]);
    SyntheticStack(g, recs, s, gray, v, r1[v]);
    SyntheticEntries(g, st, v, t);
    hide Structure, StackOk, BlackMet, BlackAnchored, CountsOn, StartedFree, AsyncReachesTLA, Entries, Completions,
         RecordsOk;
  }

  lemma SyntheticCounts(g: Graph, recs: Recs, s: seq<Id>, m: Id, r: Rec)
    requires RecordsOk(g, recs, s) && m < |recs| && !g.Cyclic(m)
    requires recs[m].body.Unstarted? && r == recs[m].(body := Over)
    requires CountsOn(recs, s) && StartedFree(recs)
    ensures CountsOn(recs[m := r], s) && StartedFree(recs[m := r])
  {
    var r1 := recs[m := r];
    SyntheticFacts(g, recs, s, m, r);
    hide RecordsOk, Occ;
    assert LiveOn(r1, s) == LiveOn(recs, s);
    var live := LiveOn(recs, s);
    hide LiveOn;
    forall p: Id | Wake.Eligible(r1, p) || p in s ensures PendingOk(r1, live, p) {
      assert PendingOk(recs, live, p);
      OccSame(recs, r1, live, live, p);
    }
    forall p: Id | Wake.Eligible(r1, p) ensures StartOk(r1, p) { assert StartOk(recs, p); }
  }

  lemma SyntheticStack(g: Graph, recs: Recs, s: seq<Id>, gray: set<Id>, m: Id, r: Rec)
    requires RecordsOk(g, recs, s) && m < |recs| && !g.Cyclic(m)
    requires recs[m].body.Unstarted? && r == recs[m].(body := Over)
    requires StackOk(recs, s, gray) && BlackMet(g, recs, s, gray) && BlackAnchored(recs, s, gray, None)
    requires AsyncReachesTLA(g, recs)
    ensures var r1 := recs[m := r];
      StackOk(r1, s, gray) && BlackMet(g, r1, s, gray) && BlackAnchored(r1, s, gray, Some(m)) && AsyncReachesTLA(g, r1)
  {
    var r1 := recs[m := r];
    SyntheticFacts(g, recs, s, m, r);
    hide RecordsOk, ReachesTLA;
    forall x | x in s && x in gray ensures GrayOk(r1, x) { assert GrayOk(recs, x); }
    forall x | x in s && x !in gray ensures BlackOk(r1, x) { assert BlackOk(recs, x); }
    forall x: Id, y: Id | x in s && x !in gray && y in g.Requested(x) ensures StackMet(g, r1, s, x, y) {
      assert StackMet(g, recs, s, x, y);
    }
    forall x: Id | x in s && x !in gray && Async(r1, x) ensures Anchored(r1, s, x) {
      assert Anchored(recs, s, x);
      var p :| p in Parents(recs, x) && p in s;
      assert p in Parents(r1, x);
    }
    forall x: Id | Async(r1, x) ensures ReachesTLA(g, x) { assert Async(recs, x); }
  }

  lemma SyntheticStarts(g: Graph, log: seq<Event>, v: Id)
    requires !g.Cyclic(v)
    ensures StartInOrder(g, log, |log|, v)
  {
  }

  lemma SyntheticEntries(g: Graph, st: State, v: Id, t: Id)
    requires Entries(g, st, t) && Completions(st) && v < |st.recs| && !g.Cyclic(v) && st.recs[v].body.Unstarted?
    requires !st.recs[v].hasError
    ensures var st1 := Note(Note(Put(st, v, st.recs[v].(body := Over)), Began(v)), Completed(v)); Entries(g, st1, t) && Completions(st1)
  {
    var sta := Note(Put(st, v, st.recs[v].(body := Over)), Began(v));
    var st1 := Note(sta, Completed(v));
    SyntheticStarts(g, st.log, v);
    NoteStarts(g, st.log, Began(v));
    NoteStarts(g, sta.log, Completed(v));
    hide StartsInOrder, StartInOrder;
    forall x: Id ensures EntryOk(g, st1, t, x) {
      assert EntryOk(g, st, t, x);
      forall e: Event
        ensures EventCount(st1.log, e) == EventCount(st.log, e) + (if e == Began(v) || e == Completed(v) then 1 else 0)
      {
        CountNote(st.log, Began(v), e);
        CountNote(sta.log, Completed(v), e);
      }
    }
    forall x: Id | x < |st1.recs|
      ensures CompletionOk(st1.recs[x], st1.log, x)
    {
      assert CompletionOk(st.recs[x], st.log, x);
    }
  }

  lemma SyntheticReturned(g: Graph, st: State, s: seq<Id>, gray: set<Id>, v: Id, index: int, t: Id, st1: State)
    requires MayEnter(g, st, s, gray, v, index, t) && !g.Cyclic(v)
    requires
      && |st1.recs| == |st.recs|
      && st1.recs == st.recs[v := st1.recs[v]]
      && st1.recs[v] == st.recs[v].(body := Over)
    requires st.recs[v].body.Unstarted? || st1.recs == st.recs
    ensures Returned(Imports(g), View(g, st.recs, s), View(g, st1.recs, s), gray, v)
    ensures Grows(st.recs, st1.recs, s, s) && ParentsAbove(st1.recs, s, |s|)
    ensures Linker.Indices(st1.recs) == Linker.Indices(st.recs)
  {
    ViewKept(g, st.recs, s, v, st1.recs[v]);
    Linker.IndicesUpdate(st.recs, v, st1.recs[v]);
    assert v in Gone(g, st.recs);
    assert s[|s|..] == [];
    if st1.recs == st.recs { GrowsRefl(st.recs, s); } else {
      EvaluatesRecords(g, st, s, gray, None, t);
      hide MayEnter, RootsOk, View, Linker.Indices;
      SyntheticGrows(g, st.recs, s, v, st1.recs[v]);
    }
  }

  lemma SyntheticGrows(g: Graph, recs: Recs, s: seq<Id>, v: Id, r: Rec)
    requires RecordsOk(g, recs, s) && v < |recs| && !g.Cyclic(v)
    requires recs[v].body.Unstarted? && r == recs[v].(body := Over)
    ensures Grows(recs, recs[v := r], s, s)
  {
    var r1 := recs[v := r];
    assert RecordOk(g, v, recs[v], v in s);
    SyntheticFacts(g, recs, s, v, r);
    assert forall x: Id :: EvolvesAt(recs, r1, x);
    hide RecordsOk, RecordOk, EvolvesAt;
    forall x: Id ensures GrowsAt(recs, r1, s, s, x) {}
  }

  /** A request for a synthetic module that evaluates, or has evaluated, without error. */
  lemma SyntheticDoneCall(g: Graph, st: State, s: seq<Id>, gray: set<Id>, v: Id, index: int, t: Id, st1: State)
    requires MayEnter(g, st, s, gray, v, index, t) && SyntheticDone(st1.recs, v) && st.log <= st1.log
    requires Evaluates(g, st1, s, gray, Some(v), t)
    requires Returned(Imports(g), View(g, st.recs, s), View(g, st1.recs, s), gray, v)
    requires
      && Grows(st.recs, st1.recs, s, s)
      && ParentsAbove(st1.recs, s, |s|)
      && Linker.Indices(st1.recs) == Linker.Indices(st.recs)
    ensures CallDone(g, st, s, st1, s, gray, v, index, t)
  {
    hide Evaluates, Returned, Grows, ParentsAbove, Searching, Reach, View, Linker.Indices, SyntheticDone;
  }

  /** A synthetic module that has been evaluated before, and did not fail. */
  lemma SyntheticSkipped(w: World, st: State, s: seq<Id>, gray: set<Id>, v: Id, index: int, t: Id)
    requires MayEnter(w.g, st, s, gray, v, index, t) && !w.g.Cyclic(v)
    requires st.recs[v].body.Over? && EvaluateSynthetic(w, st, v).1.None?
    ensures CallDone(w.g, st, s, EvaluateSynthetic(w, st, v).0, s, gray, v, index, t)
  {
    assert EvaluateSynthetic(w, st, v).0 == st && SyntheticDone(st.recs, v);
    assert Evaluates(w.g, st, s, gray, None, t);
    assert st.recs == st.recs[v := st.recs[v]];
    hide EvaluateSynthetic, Evaluates, SyntheticDone, MayEnter;
    SyntheticReturned(w.g, st, s, gray, v, index, t, st);
    SkipEvaluates(w.g, st, s, gray, v, t);
    SyntheticDoneCall(w.g, st, s, gray, v, index, t, st);
  }

  /** A synthetic module that is evaluated now. */
  lemma SyntheticFresh(w: World, st: State, s: seq<Id>, gray: set<Id>, v: Id, index: int, t: Id)
    requires MayEnter(w.g, st, s, gray, v, index, t) && !w.g.Cyclic(v)
    requires st.recs[v].body.Unstarted? && !st.recs[v].hasError && EvaluateSynthetic(w, st, v).1.None?
    ensures CallDone(w.g, st, s, EvaluateSynthetic(w, st, v).0, s, gray, v, index, t)
  {
    var st1 := Note(Note(Put(st, v, st.recs[v].(body := Over)), Began(v)), Completed(v));
    assert EvaluateSynthetic(w, st, v).0 == st1 && SyntheticDone(st1.recs, v);
    assert Evaluates(w.g, st, s, gray, None, t);
    hide EvaluateSynthetic, Evaluates, SyntheticDone, MayEnter;
    SyntheticReturned(w.g, st, s, gray, v, index, t, st1);
    SyntheticEvaluates(w.g, st, s, gray, v, t);
    SyntheticDoneCall(w.g, st, s, gray, v, index, t, st1);
  }

  lemma SyntheticCall(w: World, st: State, s: seq<Id>, gray: set<Id>, v: Id, index: int, t: Id)
    requires MayEnter(w.g, st, s, gray, v, index, t) && !w.g.Cyclic(v)
    requires EvaluateSynthetic(w, st, v).1.None?
    ensures CallDone(w.g, st, s, EvaluateSynthetic(w, st, v).0, s, gray, v, index, t)
  {
    SyntheticOff(w.g, st, s, gray, v, t);
    hide MayEnter, CallDone, EvaluateSynthetic;
    if st.recs[v].body.Unstarted? {
      SyntheticFresh(w, st, s, gray, v, index, t);
    } else {
      SyntheticSkipped(w, st, s, gray, v, index, t);
    }
  }

  lemma SyntheticOff(g: Graph, st: State, s: seq<Id>, gray: set<Id>, v: Id, t: Id)
    requires Evaluates(g, st, s, gray, None, t) && v < |st.recs| && !g.Cyclic(v)
    ensures v !in s && (st.recs[v].body.Unstarted? || st.recs[v].body.Over?)
    ensures st.recs[v].hasError ==> st.recs[v].body.Over?
  {
    EvaluatesRecords(g, st, s, gray, None, t);
    hide Evaluates, RootsOk;
    assert RecordOk(g, v, st.recs[v], v in s);
  }

  lemma SkipEvaluates(g: Graph, st: State, s: seq<Id>, gray: set<Id>, v: Id, t: Id)
    requires Evaluates(g, st, s, gray, None, t)
    ensures Evaluates(g, st, s, gray, Some(v), t)
  {
    hide Structure, StackOk, BlackMet, CountsOn, StartedFree, AsyncReachesTLA, Entries, Completions, Anchored;
  }

  // ── After a request ──────────────────────────────────────────────────────

  /** Facts about `m` and its stack segment while it loops. */
  lemma LoopFacts(g: Graph, st0: State, s0: seq<Id>, st: State, s: seq<Id>, gray: set<Id>, m: Id, i: nat, index: int,
                  t: Id)
    requires CallLooping(g, st0, s0, st, s, gray, m, i, index, t)
    ensures |s0| < |s| && s[|s0|] == m && m in s && m in s[|s0|..] && m !in s0
    ensures GrayOk(st.recs, m) && m !in gray
    ensures Imports(g)(m) == g.Requested(m)
    ensures forall x | x in gray :: x in s[..|s0|]
  {
    hide Structure, BlackMet, CountsOn, StartedFree, AsyncReachesTLA, Entries, Completions, Chained, LowLinked, Leaning,
         Scc.Finished, Bounded, Looked, Closed, Reach;
    assert s[|s0|..][0] == m;
    assert s[..|s0|] == s0;
  }

  lemma StackMetGrows(g: Graph, r0: Recs, r1: Recs, s0: seq<Id>, s1: seq<Id>, x: Id, y: Id)
    requires StackMet(g, r0, s0, x, y) && Grows(r0, r1, s0, s1)
    ensures StackMet(g, r1, s1, x, y)
  {
    assert GrowsAt(r0, r1, s0, s1, y) && GrowsAt(r0, r1, s0, s1, Root(r0, y));
    if y in s0 { var k :| 0 <= k < |s0| && s0[k] == y; assert s1[k] == y; }
  }

  lemma ParentsAboveMore(r0: Recs, r1: Recs, s0: seq<Id>, s1: seq<Id>, base: nat)
    requires ParentsAbove(r0, s0, base) && Grows(r0, r1, s0, s1) && ParentsAbove(r1, s1, |s0|)
    ensures ParentsAbove(r1, s1, base)
  {
    forall x, p | x in s1[base..] && p in Parents(r1, x) ensures p in s1[base..] {
      var k :| 0 <= k < |s1| - base && s1[base..][k] == x;
      if base + k < |s0| {
        assert s0[base..][k] == x && s0[base + k] == x;
        assert GrowsAt(r0, r1, s0, s1, x);
        if p in Parents(r0, x) {
          assert x in s0[base..] && p in s0[base..];
          var j :| 0 <= j < |s0| - base && s0[base..][j] == p;
          assert s1[base..][j] == p;
        } else {
          var j :| 0 <= j < |s1| - |s0| && s1[|s0|..][j] == p;
          assert s1[base..][|s0| - base + j] == p;
        }
      } else {
        assert s1[|s0|..][base + k - |s0|] == x;
        assert x in s1[|s0|..] && p in s1[|s0|..];
        var j :| 0 <= j < |s1| - |s0| && s1[|s0|..][j] == p;
        assert s1[base..][|s0| - base + j] == p;
      }
    }
  }

  /** What the child's call leaves of the caller's loop, before the caller looks at the child. */
  ghost predicate Between(g: Graph, st0: State, s0: seq<Id>, st: State, s: seq<Id>, gray: set<Id>, m: Id, i: nat,
                          index: int, t: Id) {
    && Evaluates(g, st, s, gray + {m}, Some(if i < |g.Requested(m)| then g.Requested(m)[i] else m), t)
    && Extends(View(g, st0.recs, s0), View(g, st.recs, s))
    && Grows(st0.recs, st.recs, s0, s) && st0.log <= st.log
    && ParentsAbove(st.recs, s, |s0|)
    && m < |st.recs| && g.Cyclic(m) && |s0| < |s| && s[|s0|] == m && m !in s0 && GrayOk(st.recs, m)
    && (forall j | 0 <= j < i && j < |g.Requested(m)| :: StackMet(g, st.recs, s, m, g.Requested(m)[j]))
    && (forall x | x in s :: At(Linker.Indices(st.recs), x) < index)
  }

  lemma AfterChild(g: Graph, st0: State, s0: seq<Id>, st: State, s: seq<Id>, st1: State, s1: seq<Id>,
                   gray: set<Id>, m: Id, i: nat, index: int, index1: int, t: Id)
    requires CallLooping(g, st0, s0, st, s, gray, m, i, index, t) && i < |g.Requested(m)|
    requires CallDone(g, st, s, st1, s1, gray + {m}, g.Requested(m)[i], index1, t)
    ensures Between(g, st0, s0, st1, s1, gray, m, i, index1, t)
  {
    hide Looping, Returned, Evaluates, Extends, Grows, ParentsAbove, StackMet, View, GrayOk, Reach;
    LoopFacts(g, st0, s0, st, s, gray, m, i, index, t);
    AfterChildFrame(g, st0, s0, st, s, st1, s1, gray, m, i, index, index1, t);
    AfterChildGray(g, st1, s1, gray + {m}, m, g.Requested(m)[i], t);
  }

  lemma AfterChildGray(g: Graph, st: State, s: seq<Id>, gray: set<Id>, m: Id, v: Id, t: Id)
    requires Evaluates(g, st, s, gray, Some(v), t) && m in s && m in gray
    ensures GrayOk(st.recs, m)
  {
    hide Structure, BlackMet, BlackAnchored, CountsOn, StartedFree, AsyncReachesTLA, Entries, Completions;
  }

  lemma DoneExtends(g: Graph, st0: State, s0: seq<Id>, st: State, s: seq<Id>, gray: set<Id>, m: Id, index: int, t: Id)
    requires CallDone(g, st0, s0, st, s, gray, m, index, t)
    ensures Extends(View(g, st0.recs, s0), View(g, st.recs, s))
  {
    hide Searching, Extends, Bounded, View, Evaluates, Grows, ParentsAbove;
  }

  lemma AfterChildFrame(g: Graph, st0: State, s0: seq<Id>, st: State, s: seq<Id>, st1: State, s1: seq<Id>,
                        gray: set<Id>, m: Id, i: nat, index: int, index1: int, t: Id)
    requires CallLooping(g, st0, s0, st, s, gray, m, i, index, t) && i < |g.Requested(m)|
    requires CallDone(g, st, s, st1, s1, gray + {m}, g.Requested(m)[i], index1, t)
    requires |s0| < |s| && s[|s0|] == m && m in s
    ensures Extends(View(g, st0.recs, s0), View(g, st1.recs, s1))
    ensures Grows(st0.recs, st1.recs, s0, s1) && st0.log <= st1.log
    ensures ParentsAbove(st1.recs, s1, |s0|)
    ensures |s0| < |s1| && s1[|s0|] == m && m in s1 && m < |st1.recs|
    ensures forall j | 0 <= j < i && j < |g.Requested(m)| :: StackMet(g, st1.recs, s1, m, g.Requested(m)[j])
  {
    DoneExtends(g, st, s, st1, s1, gray + {m}, g.Requested(m)[i], index1, t);
    hide Looping, Returned, Evaluates, Reach, Extends, View, Parents, StackMet;
    Linker.ExtendsTrans(View(g, st0.recs, s0), View(g, st.recs, s), View(g, st1.recs, s1));
    GrowsTrans(st0.recs, st.recs, st1.recs, s0, s, s1);
    ParentsAboveMore(st.recs, st1.recs, s, s1, |s0|);
    assert s <= s1;
    hide Grows, ParentsAbove;
    assert s1[|s0|] == s[|s0|];
    forall j | 0 <= j < i && j < |g.Requested(m)| ensures StackMet(g, st1.recs, s1, m, g.Requested(m)[j]) {
      StackMetGrows(g, st.recs, st1.recs, s, s1, m, g.Requested(m)[j]);
    }
  }

  /** Where the child is, when its call has returned. */
  lemma ChildPlace(g: Graph, st: State, s: seq<Id>, st1: State, s1: seq<Id>, gray: set<Id>, v: Id, index: int, t: Id)
    requires CallDone(g, st, s, st1, s1, gray, v, index, t)
    ensures g.Cyclic(v) ==> v < |st1.recs| && (v in s1 <==> st1.recs[v].status.Evaluating?)
    ensures g.Cyclic(v) && v !in s1 ==> Rooted(st1.recs, v) && RootOk(g, st1.recs, v)
    ensures v in s1 ==> g.Cyclic(v)
    ensures v in View(g, st1.recs, s1).done || v in s1
    ensures !g.Cyclic(v) ==> SyntheticDone(st1.recs, v)
  {
    hide Searching, StackOk, BlackMet, CountsOn, StartedFree, AsyncReachesTLA, Entries, Completions, Grows, RequestsMet,
         EdgesUp, ErrorsUp, CycleParents, Reach;
    if g.Cyclic(v) && v < |st1.recs| { assert RecordOk(g, v, st1.recs[v], v in s1); }
    if v in s1 { assert RecordOk(g, v, st1.recs[v], v in s1); }
  }

  // Lowering `dfsAncestorIndex` concerns the search only.

  ghost function Lowered(recs: Recs, m: Id, v: int): Recs
    requires m < |recs|
  {
    recs[m := recs[m].(dfsAncestorIndex := v)]
  }

  lemma LowerFacts(g: Graph, recs: Recs, s: seq<Id>, m: Id, v: int)
    requires RecordsOk(g, recs, s) && m < |recs|
    ensures var r1 := Lowered(recs, m, v);
      && RecordsOk(g, r1, s) && Wake.SameLinks(recs, r1)
      && (forall x: Id | x < |recs| :: r1[x].body == recs[x].body && r1[x].pendingAsyncDependencies == recs[x].pendingAsyncDependencies)
      && (forall x: Id :: SyntheticDone(r1, x) == SyntheticDone(recs, x))
      && (forall x: Id | x < |recs| :: r1[x].topLevelCapability == recs[x].topLevelCapability && r1[x].error == recs[x].error)
  {
    var r1 := Lowered(recs, m, v);
    Wake.PutLinks(recs, m, r1[m]);
    forall x: Id | x < |recs| ensures RecordOk(g, x, r1[x], x in s) { assert RecordOk(g, x, recs[x], x in s); }
  }

  lemma LowerStack(g: Graph, recs: Recs, s: seq<Id>, gray: set<Id>, skip: Option<Id>, m: Id, v: int)
    requires RecordsOk(g, recs, s) && m < |recs|
    requires
      && StackOk(recs, s, gray)
      && BlackMet(g, recs, s, gray)
      && BlackAnchored(recs, s, gray, skip)
      && AsyncReachesTLA(g, recs)
    ensures var r1 := Lowered(recs, m, v);
      StackOk(r1, s, gray) && BlackMet(g, r1, s, gray) && BlackAnchored(r1, s, gray, skip) && AsyncReachesTLA(g, r1)
  {
    var r1 := Lowered(recs, m, v);
    LowerFacts(g, recs, s, m, v);
    Wake.LinkFacts(recs, r1);
    hide RecordsOk, ReachesTLA, Wake.SameLinks;
    forall x | x in s && x in gray ensures GrayOk(r1, x) { assert GrayOk(recs, x); }
    forall x | x in s && x !in gray ensures BlackOk(r1, x) { assert BlackOk(recs, x); }
    forall x: Id, y: Id | x in s && x !in gray && y in g.Requested(x) ensures StackMet(g, r1, s, x, y) {
      assert StackMet(g, recs, s, x, y);
    }
    forall x: Id | x in s && x !in gray && Async(r1, x) && skip != Some(x) ensures Anchored(r1, s, x) {
      assert Anchored(recs, s, x);
      var p :| p in Parents(recs, x) && p in s;
      assert p in Parents(r1, x);
    }
    forall x: Id | Async(r1, x) ensures ReachesTLA(g, x) { assert Async(recs, x); }
  }

  lemma LowerCounts(g: Graph, recs: Recs, s: seq<Id>, m: Id, v: int)
    requires RecordsOk(g, recs, s) && m < |recs|
    requires CountsOn(recs, s) && StartedFree(recs)
    ensures CountsOn(Lowered(recs, m, v), s) && StartedFree(Lowered(recs, m, v))
  {
    var r1 := Lowered(recs, m, v);
    LowerFacts(g, recs, s, m, v);
    Wake.LinkFacts(recs, r1);
    assert LiveOn(r1, s) == LiveOn(recs, s);
    var live := LiveOn(recs, s);
    hide RecordsOk, Occ, LiveOn, Lowered;
    forall p: Id | Wake.Eligible(r1, p) || p in s ensures PendingOk(r1, live, p) {
      assert PendingOk(recs, live, p);
      Wake.LinksOcc(recs, r1, live, p);
    }
    forall p: Id | Wake.Eligible(r1, p) ensures StartOk(r1, p) { assert StartOk(recs, p); }
  }

  lemma LowerEvaluates(g: Graph, st: State, s: seq<Id>, gray: set<Id>, skip: Option<Id>, m: Id, v: int, t: Id)
    requires Evaluates(g, st, s, gray, skip, t) && m < |st.recs|
    ensures Evaluates(g, st.(recs := Lowered(st.recs, m, v)), s, gray, skip, t)
  {
    var st1 := st.(recs := Lowered(st.recs, m, v));
    LowerFacts(g, st.recs, s, m, v);
    Wake.StructureKept(g, st.recs, st1.recs, s);
    LowerStack(g, st.recs, s, gray, skip, m, v);
    LowerCounts(g, st.recs, s, m, v);
    hide Structure, StackOk, BlackMet, BlackAnchored, CountsOn, StartedFree, AsyncReachesTLA, RecordsOk, StartsInOrder,
         Wake.SameLinks;
    forall x: Id ensures EntryOk(g, st1, t, x) { assert EntryOk(g, st, t, x); }
    forall x: Id | x < |st1.recs|
      ensures CompletionOk(st1.recs[x], st1.log, x)
    {
      assert CompletionOk(st.recs[x], st.log, x);
    }
  }

  lemma LowerGrows(g: Graph, recs: Recs, s: seq<Id>, m: Id, v: int, base: nat)
    requires RecordsOk(g, recs, s) && m < |recs| && ParentsAbove(recs, s, base)
    ensures (forall x: Id :: GrowsTo(recs, Lowered(recs, m, v), x, m)) && ParentsAbove(Lowered(recs, m, v), s, base)
    ensures Linker.Indices(Lowered(recs, m, v)) == Linker.Indices(recs)
  {
    LowerFacts(g, recs, s, m, v);
    Wake.LinkFacts(recs, Lowered(recs, m, v));
    Linker.IndicesUpdate(recs, m, recs[m].(dfsAncestorIndex := v));
  }

  lemma ViewLower(g: Graph, r: Recs, s: seq<Id>, m: Id, v: int)
    requires m < |r|
    ensures View(g, Lowered(r, m, Evaluation.Min(r[m].dfsAncestorIndex, v)), s) == Lower(View(g, r, s), m, v)
  {
    var rec := r[m].(dfsAncestorIndex := Evaluation.Min(r[m].dfsAncestorIndex, v));
    assert At(Linker.AncestorIndices(r), m) == r[m].dfsAncestorIndex;
    GoneKept(g, r, m, rec);
    hide Gone, Linker.Indices, Linker.AncestorIndices;
    Linker.IndicesUpdate(r, m, rec);
    Linker.AncestorIndicesUpdate(r, m, rec);
  }

  // The three outcomes of looking at a request.

  lemma UnskipEvaluates(g: Graph, st: State, s: seq<Id>, gray: set<Id>, v: Id, t: Id)
    requires Evaluates(g, st, s, gray, Some(v), t) && v !in s
    ensures Evaluates(g, st, s, gray, None, t)
  {
    hide Structure, StackOk, BlackMet, CountsOn, StartedFree, AsyncReachesTLA, Entries, Completions;
  }

  lemma AssembleLoop(g: Graph, st0: State, s0: seq<Id>, st: State, s: seq<Id>, gray: set<Id>, m: Id, i: nat, index: int,
                     t: Id)
    requires Evaluates(g, st, s, gray + {m}, None, t)
    requires Looping(Imports(g), View(g, st.recs, s), gray, |s0|, m, i + 1)
    requires Extends(View(g, st0.recs, s0), View(g, st.recs, s))
    requires Grows(st0.recs, st.recs, s0, s) && st0.log <= st.log
    requires ParentsAbove(st.recs, s, |s0|)
    requires m < |st.recs| && g.Cyclic(m) && i < |g.Requested(m)|
    requires forall j | 0 <= j < i :: StackMet(g, st.recs, s, m, g.Requested(m)[j])
    requires StackMet(g, st.recs, s, m, g.Requested(m)[i])
    requires forall x | x in s :: At(Linker.Indices(st.recs), x) < index
    ensures CallLooping(g, st0, s0, st, s, gray, m, i + 1, index, t)
  {
    hide Evaluates, Looping, Extends, Grows, ParentsAbove, StackMet, View;
  }

  /** A request that is synthetic: nothing to do. */
  lemma LookSynthetic(g: Graph, st0: State, s0: seq<Id>, st: State, s: seq<Id>, gray: set<Id>, m: Id, i: nat,
                      index: int, t: Id)
    requires Between(g, st0, s0, st, s, gray, m, i, index, t) && i < |g.Requested(m)|
    requires Looping(Imports(g), View(g, st.recs, s), gray, |s0|, m, i + 1)
    requires !g.Cyclic(g.Requested(m)[i]) && g.Requested(m)[i] !in s && SyntheticDone(st.recs, g.Requested(m)[i])
    ensures CallLooping(g, st0, s0, st, s, gray, m, i + 1, index, t)
  {
    hide Looping, Extends, Grows, ParentsAbove, View, Evaluates, GrayOk;
    UnskipEvaluates(g, st, s, gray + {m}, g.Requested(m)[i], t);
    AssembleLoop(g, st0, s0, st, s, gray, m, i, index, t);
  }

  /** `z` is what the `i`-th request of `m` waits on: itself on the stack, or its cycle root. */
  ghost predicate StandsFor(g: Graph, recs: Recs, s: seq<Id>, v: Id, z: Id) {
    g.Cyclic(v) && (if v in s then z == v else Rooted(recs, v) && z == Root(recs, v) && RootStanding(recs, s, z))
  }

  lemma LookWaits(g: Graph, st0: State, s0: seq<Id>, st: State, s: seq<Id>, gray: set<Id>, m: Id, i: nat, index: int,
                  t: Id, z: Id)
    requires Between(g, st0, s0, st, s, gray, m, i, index, t) && i < |g.Requested(m)|
    requires Looping(Imports(g), View(g, st.recs, s), gray, |s0|, m, i + 1)
    requires MayRegister(g, st.recs, s, m, z) && StandsFor(g, st.recs, s, g.Requested(m)[i], z)
    requires Async(st.recs, z)
    ensures CallLooping(g, st0, s0, Register(st, m, z), s, gray, m, i + 1, index, t)
  {
    hide Looping, View, Evaluates, MayRegister, GrayOk, Grows, ParentsAbove, Extends, Registered;
    var v := g.Requested(m)[i];
    RegisterEvaluates(g, st, s, gray + {m}, m, z, v, t);
    WaitsFrame(g, st0, s0, st, s, gray, m, i, index, t, z);
    WaitsMet(g, st0, s0, st, s, gray, m, i, index, t, z);
    hide StackMet, StandsFor, Between, Register;
    AssembleLoop(g, st0, s0, Register(st, m, z), s, gray, m, i, index, t);
  }

  lemma WaitsFrame(g: Graph, st0: State, s0: seq<Id>, st: State, s: seq<Id>, gray: set<Id>, m: Id, i: nat, index: int,
                   t: Id, z: Id)
    requires Between(g, st0, s0, st, s, gray, m, i, index, t)
    requires MayRegister(g, st.recs, s, m, z) && Async(st.recs, z) && m < |st.recs| && z < |st.recs|
    ensures var r1 := Registered(st.recs, m, z);
      && View(g, r1, s) == View(g, st.recs, s)
      && ParentsAbove(r1, s, |s0|) && Linker.Indices(r1) == Linker.Indices(st.recs)
      && Grows(st0.recs, r1, s0, s)
    ensures m < |st.recs| && |s0| < |s| && g.Cyclic(m)
  {
    EvaluatesRecords(g, st, s, gray + {m}, Some(if i < |g.Requested(m)| then g.Requested(m)[i] else m), t);
    hide View, Evaluates, RecordsOk, MayRegister, Extends, RootsOk;
    assert m in s[|s0|..] by { assert s[|s0|..][0] == s[|s0|]; }
    RegisterFrame(g, st.recs, s, m, z, |s0|);
    GrowsByOne(st0.recs, st.recs, Registered(st.recs, m, z), s0, s, m);
  }

  lemma WaitsMet(g: Graph, st0: State, s0: seq<Id>, st: State, s: seq<Id>, gray: set<Id>, m: Id, i: nat, index: int,
                 t: Id, z: Id)
    requires Between(g, st0, s0, st, s, gray, m, i, index, t) && i < |g.Requested(m)|
    requires MayRegister(g, st.recs, s, m, z) && StandsFor(g, st.recs, s, g.Requested(m)[i], z)
    requires Async(st.recs, z) && m < |st.recs| && z < |st.recs|
    ensures forall j | 0 <= j <= i :: StackMet(g, Registered(st.recs, m, z), s, m, g.Requested(m)[j])
  {
    hide *;
    BetweenParts(g, st0, s0, st, s, gray, m, i, index, t);
    var ys := g.Requested(m);
    forall j | 0 <= j <= i ensures StackMet(g, Registered(st.recs, m, z), s, m, g.Requested(m)[j]) {
      assert StackMet(g, st.recs, s, m, ys[j]) || StandsFor(g, st.recs, s, ys[j], z);
      MetAfterRegister(g, st.recs, s, m, z, g.Requested(m)[j]);
    }
  }

  lemma BetweenParts(g: Graph, st0: State, s0: seq<Id>, st: State, s: seq<Id>, gray: set<Id>, m: Id, i: nat, index: int,
                     t: Id)
    requires Between(g, st0, s0, st, s, gray, m, i, index, t) && i < |g.Requested(m)|
    ensures RecordsOk(g, st.recs, s)
    ensures forall j | 0 <= j < i :: StackMet(g, st.recs, s, m, g.Requested(m)[j])
  {
    EvaluatesRecords(g, st, s, gray + {m}, Some(g.Requested(m)[i]), t);
    hide View, Evaluates, RecordsOk, Extends, RootsOk, Grows, ParentsAbove, StackMet, GrayOk;
  }

  lemma MetAfterRegister(g: Graph, recs: Recs, s: seq<Id>, m: Id, z: Id, y: Id)
    requires RecordsOk(g, recs, s) && MayRegister(g, recs, s, m, z) && Async(recs, z) && m < |recs| && z < |recs|
    requires StackMet(g, recs, s, m, y) || StandsFor(g, recs, s, y, z)
    ensures StackMet(g, Registered(recs, m, z), s, m, y)
  {
    RegisterFacts(g, recs, s, m, z);
    hide RecordsOk, MayRegister, Registered;
  }

  lemma EvaluatesRecords(g: Graph, st: State, s: seq<Id>, gray: set<Id>, skip: Option<Id>, t: Id)
    requires Evaluates(g, st, s, gray, skip, t)
    ensures RecordsOk(g, st.recs, s) && RootsOk(g, st.recs)
  {
  }

  lemma LookDone(g: Graph, st0: State, s0: seq<Id>, st: State, s: seq<Id>, gray: set<Id>, m: Id, i: nat, index: int,
                 t: Id, z: Id)
    requires Between(g, st0, s0, st, s, gray, m, i, index, t) && i < |g.Requested(m)|
    requires Looping(Imports(g), View(g, st.recs, s), gray, |s0|, m, i + 1)
    requires MayRegister(g, st.recs, s, m, z) && StandsFor(g, st.recs, s, g.Requested(m)[i], z)
    requires !Async(st.recs, z)
    ensures CallLooping(g, st0, s0, Register(st, m, z), s, gray, m, i + 1, index, t)
  {
    hide Looping, View, Extends, Grows, ParentsAbove, GrayOk;
    var v := g.Requested(m)[i];
    RegisterEvaluates(g, st, s, gray + {m}, m, z, v, t);
    hide Evaluates, MayRegister;
    AssembleLoop(g, st0, s0, st, s, gray, m, i, index, t);
  }

  /** A popped root without an error is finished or still asynchronous. */
  ghost predicate RootStanding(recs: Recs, s: seq<Id>, z: Id) {
    Rooted(recs, z) && (Fine(recs, z) || Async(recs, z))
  }

  lemma LoopAfterDone(g: Graph, st: State, s: seq<Id>, st1: State, s1: seq<Id>, gray: set<Id>, base: nat, m: Id, i: nat)
    requires Looping(Imports(g), View(g, st.recs, s), gray, base, m, i) && i < |g.Requested(m)|
    requires Returned(Imports(g), View(g, st.recs, s), View(g, st1.recs, s1), gray + {m}, g.Requested(m)[i])
    requires g.Requested(m)[i] in View(g, st1.recs, s1).done
    ensures Looping(Imports(g), View(g, st1.recs, s1), gray, base, m, i + 1)
  {
    hide Looping, Returned, View;
    ChildDone(Imports(g), View(g, st.recs, s), View(g, st1.recs, s1), gray, base, m, i);
  }

  ghost function LowerTo(recs: Recs, m: Id, v: Id): int
    requires m < |recs| && v < |recs|
  {
    Evaluation.Min(recs[m].dfsAncestorIndex, recs[v].dfsAncestorIndex)
  }

  lemma LoopAfterOnStack(g: Graph, st: State, s: seq<Id>, st1: State, s1: seq<Id>, gray: set<Id>, base: nat, m: Id,
                         i: nat, v: Id)
    requires
      && Looping(Imports(g), View(g, st.recs, s), gray, base, m, i)
      && i < |g.Requested(m)|
      && v == g.Requested(m)[i]
    requires Returned(Imports(g), View(g, st.recs, s), View(g, st1.recs, s1), gray + {m}, v)
    requires m < |st1.recs| && v < |st1.recs| && v in s1
    ensures Looping(Imports(g), View(g, Lowered(st1.recs, m, LowerTo(st1.recs, m, v)), s1), gray, base, m, i + 1)
  {
    hide Looping, Returned, Gone, Lowered;
    var d, d1 := View(g, st.recs, s), View(g, st1.recs, s1);
    ChildOnStack(Imports(g), d, d1, gray, base, m, i);
    ViewLower(g, st1.recs, s1, m, st1.recs[v].dfsAncestorIndex);
    assert At(d1.low, v) == st1.recs[v].dfsAncestorIndex;
  }

  lemma LoweredFrame(g: Graph, st0: State, s0: seq<Id>, st: State, s: seq<Id>, gray: set<Id>, m: Id, i: nat, index: int,
                     t: Id, v: int)
    requires Between(g, st0, s0, st, s, gray, m, i, index, t)
    ensures var r1 := Lowered(st.recs, m, v);
      && Extends(View(g, st0.recs, s0), View(g, r1, s)) && Grows(st0.recs, r1, s0, s)
      && ParentsAbove(r1, s, |s0|) && Linker.Indices(r1) == Linker.Indices(st.recs)
  {
    EvaluatesRecords(g, st, s, gray + {m}, Some(if i < |g.Requested(m)| then g.Requested(m)[i] else m), t);
    hide RecordsOk, RootsOk, Evaluates, View;
    LowerGrows(g, st.recs, s, m, v, |s0|);
    assert m in s[|s0|..] by { assert s[|s0|..][0] == s[|s0|]; }
    GrowsByOne(st0.recs, st.recs, Lowered(st.recs, m, v), s0, s, m);
    LowerView(g, st0, s0, st, s, m, v);
  }

  lemma BetweenLowered(g: Graph, st0: State, s0: seq<Id>, st: State, s: seq<Id>, gray: set<Id>, m: Id, i: nat,
                       index: int, t: Id, v: int)
    requires Between(g, st0, s0, st, s, gray, m, i, index, t)
    ensures Between(g, st0, s0, st.(recs := Lowered(st.recs, m, v)), s, gray, m, i, index, t)
  {
    var skip := Some(if i < |g.Requested(m)| then g.Requested(m)[i] else m);
    BetweenOpens(g, st0, s0, st, s, gray, m, i, index, t);
    hide Between, Evaluates, Grows, ParentsAbove, Extends, View, StackMet, GrayOk, Linker.Indices;
    EvaluatesRecords(g, st, s, gray + {m}, skip, t);
    hide RecordsOk, RootsOk;
    LowerEvaluates(g, st, s, gray + {m}, skip, m, v, t);
    LoweredFrame(g, st0, s0, st, s, gray, m, i, index, t, v);
    BetweenMet(g, st, s, m, v);
    var st1 := st.(recs := Lowered(st.recs, m, v));
    assert |st1.recs| == |st.recs|;
    hide Lowered;
    BetweenCloses(g, st0, s0, st1, s, gray, m, i, index, t);
  }

  lemma BetweenOpens(g: Graph, st0: State, s0: seq<Id>, st: State, s: seq<Id>, gray: set<Id>, m: Id, i: nat, index: int,
                     t: Id)
    requires Between(g, st0, s0, st, s, gray, m, i, index, t)
    ensures Evaluates(g, st, s, gray + {m}, Some(if i < |g.Requested(m)| then g.Requested(m)[i] else m), t)
    ensures Extends(View(g, st0.recs, s0), View(g, st.recs, s)) && Grows(st0.recs, st.recs, s0, s) && st0.log <= st.log
    ensures ParentsAbove(st.recs, s, |s0|)
    ensures m < |st.recs| && g.Cyclic(m) && |s0| < |s| && s[|s0|] == m && m !in s0 && GrayOk(st.recs, m)
    ensures forall j | 0 <= j < i && j < |g.Requested(m)| :: StackMet(g, st.recs, s, m, g.Requested(m)[j])
    ensures forall x | x in s :: At(Linker.Indices(st.recs), x) < index
  {
    hide Evaluates, Extends, View, Grows, ParentsAbove, StackMet, GrayOk, Linker.Indices;
  }

  lemma BetweenCloses(g: Graph, st0: State, s0: seq<Id>, st: State, s: seq<Id>, gray: set<Id>, m: Id, i: nat,
                      index: int, t: Id)
    requires Evaluates(g, st, s, gray + {m}, Some(if i < |g.Requested(m)| then g.Requested(m)[i] else m), t)
    requires Extends(View(g, st0.recs, s0), View(g, st.recs, s)) && Grows(st0.recs, st.recs, s0, s) && st0.log <= st.log
    requires ParentsAbove(st.recs, s, |s0|)
    requires m < |st.recs| && g.Cyclic(m) && |s0| < |s| && s[|s0|] == m && m !in s0 && GrayOk(st.recs, m)
    requires forall j | 0 <= j < i && j < |g.Requested(m)| :: StackMet(g, st.recs, s, m, g.Requested(m)[j])
    requires forall x | x in s :: At(Linker.Indices(st.recs), x) < index
    ensures Between(g, st0, s0, st, s, gray, m, i, index, t)
  {
    hide Evaluates, Extends, View, Grows, ParentsAbove, StackMet, GrayOk, Linker.Indices;
  }

  lemma LowerView(g: Graph, st0: State, s0: seq<Id>, st: State, s: seq<Id>, m: Id, v: int)
    requires Extends(View(g, st0.recs, s0), View(g, st.recs, s)) && m < |st.recs|
    requires m !in s0
    ensures Extends(View(g, st0.recs, s0), View(g, Lowered(st.recs, m, v), s))
  {
    var rec := st.recs[m].(dfsAncestorIndex := v);
    GoneKept(g, st.recs, m, rec);
    Linker.IndicesUpdate(st.recs, m, rec);
    Linker.AncestorIndicesUpdate(st.recs, m, rec);
    hide Gone, Linker.Indices, Linker.AncestorIndices;
  }

  lemma BetweenMet(g: Graph, st: State, s: seq<Id>, m: Id, v: int)
    requires RecordsOk(g, st.recs, s) && m < |st.recs|
    ensures forall y: Id | StackMet(g, st.recs, s, m, y) :: StackMet(g, Lowered(st.recs, m, v), s, m, y)
    ensures GrayOk(st.recs, m) ==> GrayOk(Lowered(st.recs, m, v), m)
  {
    LowerFacts(g, st.recs, s, m, v);
    Wake.LinkFacts(st.recs, Lowered(st.recs, m, v));
  }

  /** The caller has looked at its `i`-th request, and goes on. */
  lemma AfterRequestOk(w: World, st0: State, s0: seq<Id>, st: State, s: seq<Id>, st1: State, s1: seq<Id>,
                       gray: set<Id>, m: Id, i: nat, index: int, index1: int, t: Id)
    requires CallLooping(w.g, st0, s0, st, s, gray, m, i, index, t) && i < |w.g.Requested(m)|
    requires CallDone(w.g, st, s, st1, s1, gray + {m}, w.g.Requested(m)[i], index1, t)
    requires AfterRequest(w, st1, m, w.g.Requested(m)[i]).1.None?
    ensures CallLooping(w.g, st0, s0, AfterRequest(w, st1, m, w.g.Requested(m)[i]).0, s1, gray, m, i + 1, index1, t)
  {
    hide CallLooping, CallDone, Between, Looping, SyntheticDone, Returned, RootOk, View;
    var g, v := w.g, w.g.Requested(m)[i];
    AfterChild(g, st0, s0, st, s, st1, s1, gray, m, i, index, index1, t);
    ChildPlace(g, st, s, st1, s1, gray + {m}, v, index1, t);
    ChildSearch(g, st0, s0, st, s, st1, s1, gray, m, i, index, index1, t);
    if v !in s1 { LoopAfterDone(g, st, s, st1, s1, gray, |s0|, m, i); }
    if !g.Cyclic(v) {
      LookSynthetic(g, st0, s0, st1, s1, gray, m, i, index1, t);
    } else if v in s1 {
      LoopAfterOnStack(g, st, s, st1, s1, gray, |s0|, m, i, v);
      var low := LowerTo(st1.recs, m, v);
      var st2 := st1.(recs := Lowered(st1.recs, m, low));
      BetweenLowered(g, st0, s0, st1, s1, gray, m, i, index1, t, low);
      LookAt(g, st0, s0, st2, s1, gray, m, i, index1, t, v);
    } else {
      LookAt(g, st0, s0, st1, s1, gray, m, i, index1, t, Root(st1.recs, v));
    }
  }

  lemma ChildSearch(g: Graph, st0: State, s0: seq<Id>, st: State, s: seq<Id>, st1: State, s1: seq<Id>,
                    gray: set<Id>, m: Id, i: nat, index: int, index1: int, t: Id)
    requires CallLooping(g, st0, s0, st, s, gray, m, i, index, t) && i < |g.Requested(m)|
    requires CallDone(g, st, s, st1, s1, gray + {m}, g.Requested(m)[i], index1, t)
    ensures Looping(Imports(g), View(g, st.recs, s), gray, |s0|, m, i)
    ensures Returned(Imports(g), View(g, st.recs, s), View(g, st1.recs, s1), gray + {m}, g.Requested(m)[i])
    ensures m < |st1.recs|
  {
    hide Looping, Returned, Evaluates, Extends, ParentsAbove, View, Reach;
  }

  lemma LookAt(g: Graph, st0: State, s0: seq<Id>, st: State, s: seq<Id>, gray: set<Id>, m: Id, i: nat, index: int,
               t: Id, z: Id)
    requires Between(g, st0, s0, st, s, gray, m, i, index, t) && i < |g.Requested(m)|
    requires Looping(Imports(g), View(g, st.recs, s), gray, |s0|, m, i + 1)
    requires var v := g.Requested(m)[i];
      g.Cyclic(v) && (if v in s then z == v else Rooted(st.recs, v) && RootOk(g, st.recs, v) && z == Root(st.recs, v) && !Errored(st.recs, z))
    ensures CallLooping(g, st0, s0, Register(st, m, z), s, gray, m, i + 1, index, t)
  {
    var v := g.Requested(m)[i];
    EvaluatesRecords(g, st, s, gray + {m}, Some(v), t);
    assert m in s && GrayOk(st.recs, m) && g.Cyclic(m) by { assert s[|s0|] == m; }
    hide Between, Looping;
    LookPlace(g, st.recs, s, m, v, z);
    if Async(st.recs, z) {
      LookWaits(g, st0, s0, st, s, gray, m, i, index, t, z);
    } else {
      LookDone(g, st0, s0, st, s, gray, m, i, index, t, z);
    }
  }

  lemma LookPlace(g: Graph, recs: Recs, s: seq<Id>, m: Id, v: Id, z: Id)
    requires
      && RecordsOk(g, recs, s)
      && RootsOk(g, recs)
      && m in s
      && GrayOk(recs, m)
      && g.Cyclic(m)
      && v in g.Requested(m)
    requires
      && g.Cyclic(v)
      && (if v in s then z == v else Rooted(recs, v) && RootOk(g, recs, v) && z == Root(recs, v) && !Errored(recs, z))
    ensures MayRegister(g, recs, s, m, z) && StandsFor(g, recs, s, v, z)
  {
    hide Reach;
    ReachEdge(Imports(g), m, v);
    if v !in s {
      ReachTrans(Imports(g), m, v, z);
      PopIsOffStack(g, recs, s, z);
      assert RecordOk(g, z, recs[z], z in s);
    }
  }

  // ── Running the body, or becoming asynchronous ───────────────────────────

  /** A body that is entered has an environment: a generator's own, or one made now. */
  ghost predicate HasEnvironment(a: Rec, b: Rec) {
    if a.code.Generator? then b.getters == a.getters else b.getters.Some?
  }

  /** What the end of its loop makes of the record of `m`; `k` is the order counter after it. */
  ghost predicate Blackened(g: Graph, a: Rec, b: Rec, m: Id, k: nat) {
    if a.pendingAsyncDependencies > 0 || g.HasTLA(m) then
      && b == a.(asyncEvaluation := true, asyncEvaluationOrder := k, body := b.body, getters := b.getters)
      && (if a.pendingAsyncDependencies == 0 then b.body.Running? && HasEnvironment(a, b) else b.body == a.body && b.getters == a.getters)
    else
      b == a.(body := Over, getters := b.getters) && HasEnvironment(a, b)
  }

  lemma BlackenFacts(g: Graph, recs: Recs, s: seq<Id>, m: Id, r: Rec, k: nat)
    requires RecordsOk(g, recs, s) && m in s && g.Cyclic(m) && GrayOk(recs, m) && recs[m].pendingAsyncDependencies >= 0
    requires Blackened(g, recs[m], r, m, k)
    ensures var r1 := recs[m := r];
      && RecordsOk(g, r1, s) && BlackOk(r1, m) && Parents(r1, m) == [] && !Waiting(recs, m)
      && (forall x: Id :: Waiting(r1, x) == Waiting(recs, x) && Errored(r1, x) == Errored(recs, x))
      && (forall x: Id :: Fine(r1, x) == Fine(recs, x) && Rooted(r1, x) == Rooted(recs, x) && Root(r1, x) == Root(recs, x))
      && (forall x: Id :: Parents(r1, x) == Parents(recs, x))
      && (forall x: Id | x != m :: Order(r1, x) == Order(recs, x) && Async(r1, x) == Async(recs, x))
      && (forall x: Id | SyntheticDone(recs, x) :: SyntheticDone(r1, x))
      && (Async(r1, m) ==> Order(r1, m) == k)
  {
    var r1 := recs[m := r];
    assert RecordOk(g, m, recs[m], m in s);
    forall x: Id | x < |recs| ensures RecordOk(g, x, r1[x], x in s) { assert RecordOk(g, x, recs[x], x in s); }
  }

  lemma BlackenStructure(g: Graph, recs: Recs, s: seq<Id>, m: Id, r: Rec, k: nat)
    requires Structure(g, recs, s) && m in s && g.Cyclic(m) && GrayOk(recs, m) && recs[m].pendingAsyncDependencies >= 0
    requires Blackened(g, recs[m], r, m, k) && (forall x: Id | x < |recs| :: recs[x].asyncEvaluationOrder < k)
    ensures Structure(g, recs[m := r], s)
  {
    var r1 := recs[m := r];
    BlackenFacts(g, recs, s, m, r, k);
    assert forall x: Id :: Order(recs, x) < k || x >= |recs|;
    hide Reach, RecordsOk, Blackened, BlackOk, GrayOk, RecordOk;
    forall x: Id | Rooted(r1, x) ensures RootOk(g, r1, x) { assert RootOk(g, recs, x); }
    forall x: Id, y: Id | Rooted(r1, x) && y in g.Requested(x) ensures RequestMet(g, r1, x, y) {
      assert RequestMet(g, recs, x, y);
    }
    forall x: Id, p: Id | p in Parents(r1, x) && (Rooted(r1, x) || x in s) ensures EdgeOk(g, r1, s, x, p) {
      assert EdgeOk(g, recs, s, x, p);
      assert x != m;
    }
    forall x: Id | Rooted(r1, x) && Root(r1, x) != x && (Waiting(r1, x) || Errored(r1, x))
      ensures HasCycleParent(r1, x)
    {
      assert HasCycleParent(recs, x);
      var p :| p in Parents(recs, x) && Rooted(recs, p) && Root(recs, p) == Root(recs, x);
      assert p in Parents(r1, x) && Rooted(r1, p) && Root(r1, p) == Root(r1, x);
    }
  }

  lemma BlackenStack(g: Graph, recs: Recs, s: seq<Id>, gray: set<Id>, m: Id, r: Rec, k: nat)
    requires RecordsOk(g, recs, s) && m in s && g.Cyclic(m) && GrayOk(recs, m) && recs[m].pendingAsyncDependencies >= 0
    requires Blackened(g, recs[m], r, m, k)
    requires
      && StackOk(recs, s, gray + {m})
      && BlackMet(g, recs, s, gray + {m})
      && BlackAnchored(recs, s, gray + {m}, None)
    requires m !in gray && forall y | y in g.Requested(m) :: StackMet(g, recs, s, m, y)
    ensures var r1 := recs[m := r];
      StackOk(r1, s, gray) && BlackMet(g, r1, s, gray) && BlackAnchored(r1, s, gray, Some(m))
  {
    var r1 := recs[m := r];
    BlackenFacts(g, recs, s, m, r, k);
    hide RecordsOk, Blackened;
    forall x | x in s && x in gray ensures GrayOk(r1, x) { assert GrayOk(recs, x); }
    forall x | x in s && x !in gray ensures BlackOk(r1, x) { if x != m { assert BlackOk(recs, x); } }
    forall x: Id, y: Id | x in s && x !in gray && y in g.Requested(x) ensures StackMet(g, r1, s, x, y) {
      assert StackMet(g, recs, s, x, y);
    }
    forall x: Id | x in s && x !in gray && Async(r1, x) && Some(m) != Some(x) ensures Anchored(r1, s, x) {
      assert Anchored(recs, s, x);
      var p :| p in Parents(recs, x) && p in s;
      assert p in Parents(r1, x);
    }
  }

  lemma BlackenCounts(g: Graph, recs: Recs, s: seq<Id>, m: Id, r: Rec, k: nat)
    requires RecordsOk(g, recs, s) && m in s && g.Cyclic(m) && GrayOk(recs, m) && recs[m].pendingAsyncDependencies >= 0
    requires Blackened(g, recs[m], r, m, k)
    requires CountsOn(recs, s) && StartedFree(recs)
    ensures CountsOn(recs[m := r], s) && StartedFree(recs[m := r])
  {
    var r1 := recs[m := r];
    BlackenFacts(g, recs, s, m, r, k);
    hide RecordsOk, Occ;
    var live, live1 := LiveOn(recs, s), LiveOn(r1, s);
    assert forall x: Id :: x in live1 <==> x in live || (x == m && Async(r1, m));
    forall p: Id | Wake.Eligible(r1, p) || p in s ensures PendingOk(r1, live1, p) {
      assert PendingOk(recs, live, p);
      forall x: Id | x < |recs| ensures Share(recs, live, p, x) == Share(r1, live1, p, x) {}
      OccSame(recs, r1, live, live1, p);
    }
    forall p: Id | Wake.Eligible(r1, p) ensures StartOk(r1, p) { assert StartOk(recs, p); }
  }

  lemma PendingReachesTLA(g: Graph, recs: Recs, s: seq<Id>, m: Id)
    requires Structure(g, recs, s) && CountsOn(recs, s) && AsyncReachesTLA(g, recs) && m in s && m < |recs|
    requires recs[m].pendingAsyncDependencies > 0
    ensures ReachesTLA(g, m)
  {
    hide Reach, RootsOk, RequestsMet, ErrorsUp, CycleParents;
    assert PendingOk(recs, LiveOn(recs, s), m);
    var x := OccToPositive(recs, LiveOn(recs, s), m, |recs|);
    assert RecordOk(g, x, recs[x], x in s);
    assert EdgeOk(g, recs, s, x, m);
    assert ReachesTLA(g, x);
    var y :| Reach(Imports(g), x, y) && g.HasTLA(y);
    ReachTrans(Imports(g), m, x, y);
  }

  lemma BlackenTLA(g: Graph, recs: Recs, s: seq<Id>, m: Id, r: Rec, k: nat)
    requires
      && Structure(g, recs, s)
      && CountsOn(recs, s)
      && AsyncReachesTLA(g, recs)
      && m in s
      && m < |recs|
      && GrayOk(recs, m)
    requires Blackened(g, recs[m], r, m, k)
    ensures AsyncReachesTLA(g, recs[m := r])
  {
    if recs[m].pendingAsyncDependencies > 0 { PendingReachesTLA(g, recs, s, m); }
    if g.HasTLA(m) { ReachRefl(Imports(g), m); assert ReachesTLA(g, m); }
    hide Structure, CountsOn, ReachesTLA;
    forall x: Id | Async(recs[m := r], x) ensures ReachesTLA(g, x) { if x != m { assert Async(recs, x); } }
  }

  /** With nothing pending, every request of `m` outside its cycle is complete. */
  lemma MayRun(g: Graph, st0: State, s0: seq<Id>, st: State, s: seq<Id>, gray: set<Id>, m: Id, index: int, t: Id)
    requires CallLooping(g, st0, s0, st, s, gray, m, |g.Requested(m)|, index, t)
    requires m in s && st.recs[m].pendingAsyncDependencies == 0
    ensures StartInOrder(g, st.log, |st.log|, m)
  {
    var recs := st.recs;
    RunIsFree(g, st, s, gray + {m}, m, t);
    hide Evaluates, Extends, Grows, ParentsAbove, Reach;
    assert Imports(g)(m) == g.Requested(m);
    forall v: Id | v in g.Requested(m) && !MutualReach(Imports(g), m, v)
      ensures CompletedBelow(g, st.log, |st.log|, v)
    {
      var j :| 0 <= j < |g.Requested(m)| && g.Requested(m)[j] == v;
      assert StackMet(g, recs, s, m, v);
      if v in s { OnStackIsMutual(Imports(g), View(g, recs, s), gray, |s0|, m, |g.Requested(m)|, v); }
      hide *;
      RunLogged(g, st, s, gray + {m}, m, v, t);
    }
  }

  lemma RunIsFree(g: Graph, st: State, s: seq<Id>, gray: set<Id>, m: Id, t: Id)
    requires Evaluates(g, st, s, gray, None, t) && m in s && m < |st.recs| && st.recs[m].pendingAsyncDependencies == 0
    ensures Wake.FreeOf(st.recs, m)
    ensures forall x: Id | x in LiveOn(st.recs, s) :: m !in Parents(st.recs, x)
  {
    hide Structure, StackOk, BlackMet, BlackAnchored, StartedFree, AsyncReachesTLA, Entries, Completions;
    assert PendingOk(st.recs, LiveOn(st.recs, s), m);
    hide Occ;
    forall x: Id | x in LiveOn(st.recs, s) ensures m !in Parents(st.recs, x) {
      if m in Parents(st.recs, x) { OccIn(st.recs, LiveOn(st.recs, s), m, x); }
    }
    forall x: Id | Waiting(st.recs, x) ensures m !in Parents(st.recs, x) { assert x in LiveOn(st.recs, s); }
  }

  lemma RunLogged(g: Graph, st: State, s: seq<Id>, gray: set<Id>, m: Id, v: Id, t: Id)
    requires Evaluates(g, st, s, gray, None, t) && m in s && m < |st.recs| && Wake.FreeOf(st.recs, m)
    requires StackMet(g, st.recs, s, m, v) && v !in s
    ensures CompletedBelow(g, st.log, |st.log|, v)
  {
    hide StackOk, BlackMet, BlackAnchored, CountsOn, StartedFree, AsyncReachesTLA, StartsInOrder, Reach;
    assert RecordOk(g, m, st.recs[m], m in s);
    Wake.MetIsLogged(g, st.recs, s, st.log, m, v, st.asyncOrder);
  }

  /** The events a body adds to the log when it may run. */
  function RunLog(w: World, st: State, m: Id): seq<Event>
    requires m < |st.recs|
  {
    if st.recs[m].pendingAsyncDependencies > 0 then []
    else if w.g.HasTLA(m) || m in w.fails then [Began(m)]
    else [Began(m), Completed(m)]
  }

  lemma RunNotes(w: World, st: State, m: Id)
    requires m < |st.recs| && StartsInOrder(w.g, st.log) && st.recs[m].pendingAsyncDependencies >= 0
    requires st.recs[m].pendingAsyncDependencies == 0 ==> StartInOrder(w.g, st.log, |st.log|, m)
    ensures StartsInOrder(w.g, RunBody(w, st, m).0.log)
    ensures forall e: Event ::
        EventCount(RunBody(w, st, m).0.log, e) == EventCount(st.log, e) + (if e in RunLog(w, st, m) then 1 else 0)
    ensures forall e: Event :: e in RunBody(w, st, m).0.log <==> e in st.log || e in RunLog(w, st, m)
  {
    hide StartsInOrder, StartInOrder, EventCount;
    var began, over := st.log + [Began(m)], st.log + [Began(m)] + [Completed(m)];
    if st.recs[m].pendingAsyncDependencies == 0 { NoteStarts(w.g, st.log, Began(m)); NoteStarts(w.g, began, Completed(m)); }
    forall e: Event
      ensures EventCount(began, e) == EventCount(st.log, e) + (if e == Began(m) then 1 else 0)
    {
      CountNote(st.log, Began(m), e);
    }
    forall e: Event
      ensures EventCount(over, e) == EventCount(began, e) + (if e == Completed(m) then 1 else 0)
    {
      CountNote(began, Completed(m), e);
    }
  }

  lemma RunEntry(w: World, st: State, m: Id, x: Id, t: Id)
    requires m < |st.recs| && w.g.Cyclic(m) && GrayOk(st.recs, m)
    requires st.recs[m].status.Evaluating? && !st.recs[m].hasError && st.recs[m].pendingAsyncDependencies >= 0
    requires forall e: Event ::
        EventCount(RunBody(w, st, m).0.log, e) == EventCount(st.log, e) + (if e in RunLog(w, st, m) then 1 else 0)
    requires EntryOk(w.g, st, t, x)
    ensures EntryOk(w.g, RunBody(w, st, m).0, t, x)
  {
    hide EventCount;
  }

  lemma RunCompletions(w: World, st: State, m: Id, x: Id)
    requires m < |st.recs| && x < |st.recs| && CompletionOk(st.recs[x], st.log, x) && GrayOk(st.recs, m)
    requires st.recs[m].pendingAsyncDependencies >= 0
    ensures x != m || RunBody(w, st, m).1.None? ==>
        CompletionOk(RunBody(w, st, m).0.recs[x], RunBody(w, st, m).0.log, x)
  {
  }

  lemma RunEntries(w: World, st: State, m: Id, t: Id)
    requires Entries(w.g, st, t) && Completions(st) && m < |st.recs| && w.g.Cyclic(m) && GrayOk(st.recs, m)
    requires st.recs[m].status.Evaluating? && !st.recs[m].hasError && st.recs[m].pendingAsyncDependencies >= 0
    requires st.recs[m].pendingAsyncDependencies == 0 ==> StartInOrder(w.g, st.log, |st.log|, m)
    ensures Entries(w.g, RunBody(w, st, m).0, t)
    ensures RunBody(w, st, m).1.None? ==> Completions(RunBody(w, st, m).0)
    ensures forall x: Id | x < |st.recs| && x != m ::
        CompletionOk(RunBody(w, st, m).0.recs[x], RunBody(w, st, m).0.log, x)
  {
    var g, st1 := w.g, RunBody(w, st, m).0;
    RunNotes(w, st, m);
    hide StartsInOrder, StartInOrder, EventCount, EntryOk, CompletionOk, GrayOk;
    forall x: Id ensures EntryOk(g, st1, t, x) { RunEntry(w, st, m, x, t); }
    forall x: Id | x < |st1.recs| && (x != m || RunBody(w, st, m).1.None?)
      ensures CompletionOk(st1.recs[x], st1.log, x)
    {
      RunCompletions(w, st, m, x);
    }
  }

  lemma RunShape(w: World, st: State, m: Id)
    requires m < |st.recs|
    ensures var st1 := RunBody(w, st, m).0;
      && |st1.recs| == |st.recs| && st1.recs == st.recs[m := st1.recs[m]]
      && st.log <= st1.log
      && (st.recs[m].body.Unstarted? && st.recs[m].pendingAsyncDependencies >= 0 ==> Blackened(w.g, st.recs[m], st1.recs[m], m, st.asyncOrder + 1))
  {
  }

  lemma GrayFacts(g: Graph, st: State, s: seq<Id>, gray: set<Id>, m: Id, t: Id)
    requires Evaluates(g, st, s, gray, None, t) && m in s && m in gray
    ensures GrayOk(st.recs, m) && m < |st.recs| && st.recs[m].pendingAsyncDependencies >= 0
    ensures g.Cyclic(m) && st.recs[m].status.Evaluating? && !st.recs[m].hasError
    ensures OrdersBelow(st.recs, st.asyncOrder)
  {
    hide RootsOk, RequestsMet, EdgesUp, ErrorsUp, CycleParents, BlackMet, BlackAnchored, StartedFree, AsyncReachesTLA,
         Completions, StartsInOrder, Occ;
    assert PendingOk(st.recs, LiveOn(st.recs, s), m);
    assert RecordOk(g, m, st.recs[m], m in s);
  }

  /** The frame of a step that changes only the evaluation fields of `m`. */
  lemma RunFrame(g: Graph, recs: Recs, s: seq<Id>, m: Id, r: Rec, k: nat, base: nat)
    requires RecordsOk(g, recs, s) && m in s && g.Cyclic(m) && GrayOk(recs, m) && recs[m].pendingAsyncDependencies >= 0
    requires Blackened(g, recs[m], r, m, k) && ParentsAbove(recs, s, base)
    ensures var r1 := recs[m := r];
      && View(g, r1, s) == View(g, recs, s) && Linker.Indices(r1) == Linker.Indices(recs)
      && Grows(recs, r1, s, s) && ParentsAbove(r1, s, base)
  {
    var r1 := recs[m := r];
    BlackenFacts(g, recs, s, m, r, k);
    ViewKept(g, recs, s, m, r);
    Linker.IndicesUpdate(recs, m, r);
    hide RecordsOk, View, Linker.Indices;
    assert forall x: Id :: EvolvesAt(recs, r1, x);
    hide Blackened, EvolvesAt;
    forall x: Id ensures GrowsAt(recs, r1, s, s, x) {}
  }

  lemma RunStructure(w: World, st: State, s: seq<Id>, gray: set<Id>, m: Id, t: Id)
    requires Evaluates(w.g, st, s, gray + {m}, None, t) && m in s && m !in gray
    requires forall y | y in w.g.Requested(m) :: StackMet(w.g, st.recs, s, m, y)
    ensures var r1 := RunBody(w, st, m).0.recs;
      && Structure(w.g, r1, s) && StackOk(r1, s, gray) && BlackMet(w.g, r1, s, gray) && BlackAnchored(r1, s, gray, Some(m))
      && CountsOn(r1, s) && StartedFree(r1) && AsyncReachesTLA(w.g, r1)
  {
    GrayFacts(w.g, st, s, gray + {m}, m, t);
    RunShape(w, st, m);
    var r := RunBody(w, st, m).0.recs[m];
    BlackenStructure(w.g, st.recs, s, m, r, st.asyncOrder + 1);
    BlackenStack(w.g, st.recs, s, gray, m, r, st.asyncOrder + 1);
    BlackenCounts(w.g, st.recs, s, m, r, st.asyncOrder + 1);
    BlackenTLA(w.g, st.recs, s, m, r, st.asyncOrder + 1);
    hide Structure, StackOk, BlackMet, BlackAnchored, CountsOn, StartedFree, AsyncReachesTLA, Entries, Completions;
  }

  lemma RunBodyOk(w: World, st0: State, s0: seq<Id>, st: State, s: seq<Id>, gray: set<Id>, m: Id, index: int, t: Id)
    requires CallLooping(w.g, st0, s0, st, s, gray, m, |w.g.Requested(m)|, index, t)
    ensures var (st1, thrown) := RunBody(w, st, m);
      && (thrown.None? ==> Evaluates(w.g, st1, s, gray, Some(m), t))
      && (thrown.Some? ==> Thrown(w.g, st1, s, t))
  {
    MayFinish(w.g, st0, s0, st, s, gray, m, index, t);
    hide CallLooping, Evaluates, StackMet, StartInOrder;
    GrayFacts(w.g, st, s, gray + {m}, m, t);
    RunStructure(w, st, s, gray, m, t);
    EvaluatesEntries(w.g, st, s, gray + {m}, None, t);
    RunEntries(w, st, m, t);
    hide *;
    RunAssembled(w, st, s, gray, m, t);
  }

  lemma RunAssembled(w: World, st: State, s: seq<Id>, gray: set<Id>, m: Id, t: Id)
    requires m in s
    requires var st1 := RunBody(w, st, m).0;
      && Structure(w.g, st1.recs, s) && StackOk(st1.recs, s, gray) && BlackMet(w.g, st1.recs, s, gray) && BlackAnchored(st1.recs, s, gray, Some(m))
      && CountsOn(st1.recs, s) && StartedFree(st1.recs) && AsyncReachesTLA(w.g, st1.recs) && Entries(w.g, st1, t)
    requires var (st1, thrown) := RunBody(w, st, m); thrown.None? ==> Completions(st1)
    requires |RunBody(w, st, m).0.recs| == |st.recs|
    requires forall x: Id | x < |st.recs| && x != m ::
        CompletionOk(RunBody(w, st, m).0.recs[x], RunBody(w, st, m).0.log, x)
    ensures var (st1, thrown) := RunBody(w, st, m);
      && (thrown.None? ==> Evaluates(w.g, st1, s, gray, Some(m), t))
      && (thrown.Some? ==> Thrown(w.g, st1, s, t))
  {
    hide Structure, StackOk, BlackMet, BlackAnchored, CountsOn, StartedFree, AsyncReachesTLA, Entries, RunBody,
         CompletionOk, Completions;
  }

  lemma EvaluatesEntries(g: Graph, st: State, s: seq<Id>, gray: set<Id>, skip: Option<Id>, t: Id)
    requires Evaluates(g, st, s, gray, skip, t)
    ensures Entries(g, st, t) && Completions(st)
  {
    hide Structure, StackOk, BlackMet, BlackAnchored, CountsOn, StartedFree, AsyncReachesTLA;
  }

  /** At the end of its loop `m` has met all its requests, and may run if nothing is pending. */
  lemma MayFinish(g: Graph, st0: State, s0: seq<Id>, st: State, s: seq<Id>, gray: set<Id>, m: Id, index: int, t: Id)
    requires CallLooping(g, st0, s0, st, s, gray, m, |g.Requested(m)|, index, t)
    ensures Evaluates(g, st, s, gray + {m}, None, t) && m in s && m !in gray && m < |st.recs| && GrayOk(st.recs, m)
    ensures forall y | y in g.Requested(m) :: StackMet(g, st.recs, s, m, y)
    ensures st.recs[m].pendingAsyncDependencies == 0 ==> StartInOrder(g, st.log, |st.log|, m)
  {
    LoopFacts(g, st0, s0, st, s, gray, m, |g.Requested(m)|, index, t);
    if st.recs[m].pendingAsyncDependencies == 0 { MayRun(g, st0, s0, st, s, gray, m, index, t); }
    hide Looping, Extends, Grows, ParentsAbove, StartInOrder, Evaluates, GrayOk, StackMet;
  }

  /** A step that throws somewhere in the middle leaves what the unwinding needs. */
  lemma EvaluatesThrown(g: Graph, st: State, s: seq<Id>, gray: set<Id>, skip: Option<Id>, t: Id)
    requires Evaluates(g, st, s, gray, skip, t)
    ensures Thrown(g, st, s, t)
  {
    hide Structure, CountsOn, StartedFree, AsyncReachesTLA, Entries;
  }
}
