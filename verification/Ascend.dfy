/** The other half of the evaluation search: calls return, components are popped, an
    error unwinds the stack, and a call of Evaluate as a whole keeps the loader quiescent. */
module Ascend {
  import opened ModuleGraph
  import opened Reachability
  import opened Records
  import opened Evaluation
  import opened AsyncState
  import opened Scc
  import opened Descend
  import Linker
  import Wake

  // ── Leaving a call ───────────────────────────────────────────────────────

  /** The segment `seg` of the stack has become the component with root `m`. */
  ghost predicate PopsTo(recs: Recs, r1: Recs, seg: seq<Id>, m: Id) {
    |recs| == |r1| && forall x: Id | x < |recs| :: r1[x] == if x in seg then Popped(recs[x], m) else recs[x]
  }

  lemma {:induction false} PopToOk(st: State, s: seq<Id>, base: nat, m: Id)
    requires base < |s| && s[base] == m
    requires forall i, j | 0 <= i < j < |s| :: s[i] != s[j]
    ensures PopTo(st, s, m).1 == s[..base]
    ensures PopTo(st, s, m).0 == st.(recs := PopTo(st, s, m).0.recs)
    ensures PopsTo(st.recs, PopTo(st, s, m).0.recs, s[base..], m)
    decreases |s|
  {
    var top := s[|s|-1];
    var st1 := Put(st, top, Popped(Get(st, top), m));
    if top == m {
      assert base == |s| - 1 && s[base..] == [m];
    } else {
      var s1 := s[..|s|-1];
      PopToOk(st1, s1, base, m);
      assert s[base..] == s1[base..] + [top];
      assert s1[..base] == s[..base];
      assert forall k | 0 <= k < |s1| - base :: s1[base..][k] == s[base + k];
      assert top !in s1[base..];
    }
  }

  /** The stack with `m` finished at height `base`, about to be popped. */
  ghost predicate Popping(g: Graph, recs: Recs, s: seq<Id>, base: nat, gray: set<Id>, m: Id) {
    && base < |s| && s[base] == m && g.Cyclic(m) && m < |recs|
    && (forall i, j | 0 <= i < j < |s| :: s[i] != s[j])
    && (forall x | x in s[base..] :: x !in gray && x in s && x !in s[..base])
    && (forall x | x in s :: x in s[..base] || x in s[base..])
    && (forall x | x in s[..base] :: x in s)
    && Scc.IsComponent(Imports(g), s[base..], m)
    && (forall x, y | x in s[base..] && y in g.Requested(x) :: !(y in s[..base]))
    && ParentsAbove(recs, s, base)
  }

  lemma PopFacts(g: Graph, recs: Recs, s: seq<Id>, base: nat, gray: set<Id>, m: Id, r1: Recs)
    requires Structure(g, recs, s) && StackOk(recs, s, gray) && Popping(g, recs, s, base, gray, m)
    requires PopsTo(recs, r1, s[base..], m)
    ensures RecordsOk(g, r1, s[..base])
    ensures forall x: Id :: Rooted(r1, x) <==> Rooted(recs, x) || x in s[base..]
    ensures forall x: Id :: Root(r1, x) == if x in s[base..] then m else Root(recs, x)
    ensures forall x: Id :: Waiting(r1, x) <==> Waiting(recs, x) || (x in s[base..] && Async(recs, x))
    ensures forall x: Id :: Errored(r1, x) == Errored(recs, x) && Async(r1, x) == Async(recs, x)
    ensures forall x: Id :: Parents(r1, x) == Parents(recs, x) && Order(r1, x) == Order(recs, x)
    ensures forall x: Id :: Fine(recs, x) ==> Fine(r1, x)
    ensures forall x: Id :: SyntheticDone(recs, x) == SyntheticDone(r1, x)
    ensures forall x | x in s[base..] ::
        x < |recs| && !Rooted(recs, x) && !Errored(recs, x) && g.Cyclic(x) && BlackOk(recs, x) && !Waiting(recs, x)
    ensures m in s[base..]
  {
    hide RootsOk, RequestsMet, EdgesUp, ErrorsUp, CycleParents, Scc.IsComponent, ParentsAbove;
    assert s[base..][0] == m;
    forall x | x in s[base..]
      ensures
        && x < |recs|
        && !Rooted(recs, x)
        && !Errored(recs, x)
        && g.Cyclic(x)
        && BlackOk(recs, x)
        && !Waiting(recs, x)
    {
      assert x in s;
      assert RecordOk(g, x, recs[x], x in s);
    }
    forall x: Id | x < |recs| ensures RecordOk(g, x, r1[x], x in s[..base]) {
      assert RecordOk(g, x, recs[x], x in s);
    }
  }

  lemma PopRoots(g: Graph, recs: Recs, s: seq<Id>, base: nat, gray: set<Id>, m: Id, r1: Recs)
    requires Structure(g, recs, s) && StackOk(recs, s, gray) && Popping(g, recs, s, base, gray, m)
    requires PopsTo(recs, r1, s[base..], m)
    ensures RootsOk(g, r1)
  {
    PopFacts(g, recs, s, base, gray, m, r1);
    hide Reach, RecordsOk, RequestsMet, EdgesUp, ErrorsUp, CycleParents, StackOk, PopsTo, ParentsAbove;
    var seg := s[base..];
    forall x: Id | Rooted(r1, x) ensures RootOk(g, r1, x) {
      if x in seg {
        assert MutualReach(Imports(g), m, x);
        forall y: Id | MutualReach(Imports(g), x, y) ensures Rooted(r1, y) && Root(r1, y) == m {
          ReachTrans(Imports(g), m, x, y);
          ReachTrans(Imports(g), y, x, m);
          assert y in seg;
        }
      } else {
        assert RootOk(g, recs, x);
      }
    }
  }

  lemma PopRequests(g: Graph, recs: Recs, s: seq<Id>, base: nat, gray: set<Id>, m: Id, r1: Recs)
    requires
      && Structure(g, recs, s)
      && StackOk(recs, s, gray)
      && BlackMet(g, recs, s, gray)
      && Popping(g, recs, s, base, gray, m)
    requires PopsTo(recs, r1, s[base..], m)
    ensures RequestsMet(g, r1)
  {
    PopFacts(g, recs, s, base, gray, m, r1);
    hide Reach, RecordsOk, EdgesUp, ErrorsUp, CycleParents, StackOk, PopsTo, ParentsAbove, Scc.IsComponent;
    forall x: Id, y: Id | Rooted(r1, x) && y in g.Requested(x) ensures RequestMet(g, r1, x, y) {
      if x in s[base..] {
        assert StackMet(g, recs, s, x, y);
        if Rooted(recs, y) { assert RootOk(g, recs, y); }
      } else {
        assert RequestMet(g, recs, x, y);
        if Rooted(recs, y) { assert RootOk(g, recs, y); }
      }
    }
  }

  /** A parent of a live module is asynchronous once its call has returned. */
  lemma ParentIsAsync(g: Graph, recs: Recs, s: seq<Id>, gray: set<Id>, x: Id, p: Id)
    requires RecordsOk(g, recs, s) && StackOk(recs, s, gray) && CountsOn(recs, s)
    requires p in Parents(recs, x) && (Waiting(recs, x) || x in s) && p in s && p !in gray
    ensures Async(recs, p)
  {
    assert BlackOk(recs, p) && PendingOk(recs, LiveOn(recs, s), p);
    assert x in s ==> Async(recs, x);
    OccIn(recs, LiveOn(recs, s), p, x);
  }

  lemma PopEdges(g: Graph, recs: Recs, s: seq<Id>, base: nat, gray: set<Id>, m: Id, r1: Recs)
    requires Structure(g, recs, s) && StackOk(recs, s, gray) && CountsOn(recs, s) && Popping(g, recs, s, base, gray, m)
    requires PopsTo(recs, r1, s[base..], m)
    ensures EdgesUp(g, r1, s[..base])
  {
    PopFacts(g, recs, s, base, gray, m, r1);
    hide Reach, RootsOk, RequestsMet, ErrorsUp, CycleParents, StackOk, PopsTo, Scc.IsComponent, RecordOk, CountsOn;
    forall x: Id, p: Id | p in Parents(r1, x) && (Rooted(r1, x) || x in s[..base])
      ensures EdgeOk(g, r1, s[..base], x, p)
    {
      assert EdgeOk(g, recs, s, x, p);
      if p in s[base..] { ParentIsAsync(g, recs, s, gray, x, p); }
    }
  }

  lemma PopCycleParents(g: Graph, recs: Recs, s: seq<Id>, base: nat, gray: set<Id>, m: Id, r1: Recs)
    requires
      && Structure(g, recs, s)
      && StackOk(recs, s, gray)
      && BlackAnchored(recs, s, gray, Some(m))
      && Popping(g, recs, s, base, gray, m)
    requires PopsTo(recs, r1, s[base..], m)
    ensures CycleParents(r1) && ErrorsUp(r1)
  {
    PopFacts(g, recs, s, base, gray, m, r1);
    hide Reach, RecordsOk, RootsOk, RequestsMet, EdgesUp, StackOk, PopsTo, Scc.IsComponent;
    forall x: Id | Rooted(r1, x) && Root(r1, x) != x && (Waiting(r1, x) || Errored(r1, x))
      ensures HasCycleParent(r1, x)
    {
      if x in s[base..] {
        assert Anchored(recs, s, x);
        var p :| p in Parents(recs, x) && p in s;
        assert p in Parents(r1, x) && Rooted(r1, p) && Root(r1, p) == m;
      } else {
        assert HasCycleParent(recs, x);
        var p :| p in Parents(recs, x) && Rooted(recs, p) && Root(recs, p) == Root(recs, x);
        assert p in Parents(r1, x) && Rooted(r1, p) && Root(r1, p) == Root(r1, x);
      }
    }
  }

  lemma PopCounts(g: Graph, recs: Recs, s: seq<Id>, base: nat, gray: set<Id>, m: Id, r1: Recs)
    requires
      && Structure(g, recs, s)
      && StackOk(recs, s, gray)
      && CountsOn(recs, s)
      && StartedFree(recs)
      && Popping(g, recs, s, base, gray, m)
    requires PopsTo(recs, r1, s[base..], m)
    ensures CountsOn(r1, s[..base]) && StartedFree(r1)
  {
    PopFacts(g, recs, s, base, gray, m, r1);
    hide Reach, Structure, RecordsOk, StackOk, Scc.IsComponent, Occ;
    assert LiveOn(r1, s[..base]) == LiveOn(recs, s);
    var live := LiveOn(recs, s);
    forall p: Id ensures Occ(r1, live, p) == Occ(recs, live, p) { OccSame(recs, r1, live, live, p); }
    forall p: Id | Wake.Eligible(r1, p) || p in s[..base] ensures PendingOk(r1, live, p) {
      assert PendingOk(recs, live, p);
    }
    forall p: Id | Wake.Eligible(r1, p) ensures StartOk(r1, p) {
      if p in s[base..] { assert BlackOk(recs, p) && StartOk(recs, p); } else { assert StartOk(recs, p); }
    }
    forall x: Id, p: Id | Waiting(r1, x) && p in Parents(r1, x) && p < |r1| && !r1[p].body.Unstarted?
      ensures !Waiting(r1, p)
    {
      if p in s[base..] {
        assert BlackOk(recs, p) && PendingOk(recs, live, p);
        OccIn(recs, live, p, x);
      }
    }
  }

  lemma PopStructure(g: Graph, recs: Recs, s: seq<Id>, base: nat, gray: set<Id>, m: Id, r1: Recs)
    requires Structure(g, recs, s) && StackOk(recs, s, gray) && CountsOn(recs, s) && Popping(g, recs, s, base, gray, m)
    requires BlackMet(g, recs, s, gray) && BlackAnchored(recs, s, gray, Some(m))
    requires PopsTo(recs, r1, s[base..], m)
    ensures Structure(g, r1, s[..base])
  {
    PopFacts(g, recs, s, base, gray, m, r1);
    PopRoots(g, recs, s, base, gray, m, r1);
    PopRequests(g, recs, s, base, gray, m, r1);
    PopEdges(g, recs, s, base, gray, m, r1);
    PopCycleParents(g, recs, s, base, gray, m, r1);
    hide RecordsOk, RootsOk, RequestsMet, EdgesUp, CycleParents, ErrorsUp, Popping, PopsTo;
  }

  // What popping leaves of the part of the stack below.

  lemma PopGrows(g: Graph, r0: Recs, recs: Recs, s: seq<Id>, base: nat, gray: set<Id>, m: Id, r1: Recs)
    requires Structure(g, recs, s) && StackOk(recs, s, gray) && Popping(g, recs, s, base, gray, m)
    requires PopsTo(recs, r1, s[base..], m)
    requires Grows(r0, recs, s[..base], s)
    ensures Grows(r0, r1, s[..base], s[..base])
  {
    PopFacts(g, recs, s, base, gray, m, r1);
    hide Reach, RecordsOk, RootsOk, RequestsMet, ErrorsUp, CycleParents, StackOk, PopsTo, Scc.IsComponent;
    var s0 := s[..base];
    forall x: Id ensures GrowsAt(r0, r1, s0, s0, x) {
      assert GrowsAt(r0, recs, s0, s, x);
      if x in s0 {
        forall p | p in Parents(r1, x) ensures p in Parents(r0, x) {
          assert EdgeOk(g, recs, s, x, p);
        }
      }
    }
  }

  lemma PopStack(g: Graph, r0: Recs, recs: Recs, s: seq<Id>, base: nat, gray: set<Id>, m: Id, r1: Recs)
    requires
      && Structure(g, recs, s)
      && StackOk(recs, s, gray)
      && BlackAnchored(recs, s, gray, Some(m))
      && Popping(g, recs, s, base, gray, m)
    requires PopsTo(recs, r1, s[base..], m)
    requires Grows(r0, r1, s[..base], s[..base]) && BlackMet(g, r0, s[..base], gray)
    ensures
      && StackOk(r1, s[..base], gray)
      && BlackMet(g, r1, s[..base], gray)
      && BlackAnchored(r1, s[..base], gray, Some(m))
  {
    PopFacts(g, recs, s, base, gray, m, r1);
    hide Reach, RecordsOk, RootsOk, RequestsMet, ErrorsUp, CycleParents, Scc.IsComponent, Grows;
    var s0 := s[..base];
    forall x | x in s0 && x in gray ensures GrayOk(r1, x) { assert GrayOk(recs, x); }
    forall x | x in s0 && x !in gray ensures BlackOk(r1, x) { assert BlackOk(recs, x); }
    forall x: Id, y: Id | x in s0 && x !in gray && y in g.Requested(x) ensures StackMet(g, r1, s0, x, y) {
      assert StackMet(g, r0, s0, x, y);
      StackMetGrows(g, r0, r1, s0, s0, x, y);
    }
    forall x: Id | x in s0 && x !in gray && Async(r1, x) && Some(m) != Some(x) ensures Anchored(r1, s0, x) {
      assert Anchored(recs, s, x);
      var p :| p in Parents(recs, x) && p in s;
      assert EdgeOk(g, recs, s, x, p);
      assert p in Parents(r1, x) && p in s0;
    }
  }

  lemma PopEntries(g: Graph, st: State, s: seq<Id>, base: nat, gray: set<Id>, m: Id, t: Id, st1: State)
    requires Structure(g, st.recs, s) && StackOk(st.recs, s, gray) && Popping(g, st.recs, s, base, gray, m)
    requires PopsTo(st.recs, st1.recs, s[base..], m) && st1 == st.(recs := st1.recs)
    requires Entries(g, st, t) && Completions(st) && AsyncReachesTLA(g, st.recs)
    ensures Entries(g, st1, t) && Completions(st1) && AsyncReachesTLA(g, st1.recs)
  {
    PopFacts(g, st.recs, s, base, gray, m, st1.recs);
    hide Structure, StartsInOrder, ReachesTLA, Popping, StackOk;
    forall x: Id ensures EntryOk(g, st1, t, x) { assert EntryOk(g, st, t, x); }
    forall x: Id | x < |st1.recs|
      ensures CompletionOk(st1.recs[x], st1.log, x)
    {
      assert CompletionOk(st.recs[x], st.log, x);
    }
    forall x: Id | Async(st1.recs, x) ensures ReachesTLA(g, x) { assert Async(st.recs, x); }
  }

  lemma PopIndices(recs: Recs, r1: Recs, seg: seq<Id>, m: Id)
    requires PopsTo(recs, r1, seg, m)
    ensures Linker.Indices(r1) == Linker.Indices(recs)
    ensures Linker.AncestorIndices(r1) == Linker.AncestorIndices(recs)
  {
  }

  lemma PopGone(g: Graph, recs: Recs, r1: Recs, seg: seq<Id>, m: Id)
    requires PopsTo(recs, r1, seg, m) && forall x | x in seg :: x < |recs|
    ensures Gone(g, r1) == Gone(g, recs) + (set x | x in seg)
  {
  }

  lemma PopView(g: Graph, recs: Recs, s: seq<Id>, base: nat, m: Id, r1: Recs)
    requires base <= |s| && PopsTo(recs, r1, s[base..], m) && forall x | x in s[base..] :: x < |recs|
    ensures View(g, r1, s[..base]) == Pop(View(g, recs, s), base)
  {
    PopIndices(recs, r1, s[base..], m);
    PopGone(g, recs, r1, s[base..], m);
    hide PopsTo, Gone, Linker.Indices, Linker.AncestorIndices;
  }

  // ── The end of a call ────────────────────────────────────────────────────

  /** The body of `m` has run or waits; its component may still have to be popped. */
  ghost predicate CallRun(g: Graph, st0: State, s0: seq<Id>, st: State, s: seq<Id>, gray: set<Id>, m: Id, index: int,
                          t: Id) {
    && Evaluates(g, st, s, gray, Some(m), t)
    && Looping(Imports(g), View(g, st.recs, s), gray, |s0|, m, |g.Requested(m)|)
    && Extends(View(g, st0.recs, s0), View(g, st.recs, s))
    && Grows(st0.recs, st.recs, s0, s) && st0.log <= st.log
    && ParentsAbove(st.recs, s, |s0|)
    && m < |st.recs| && g.Cyclic(m)
    && (forall x | x in s :: At(Linker.Indices(st.recs), x) < index)
  }

  lemma RunCall(w: World, st0: State, s0: seq<Id>, st: State, s: seq<Id>, gray: set<Id>, m: Id, index: int, t: Id)
    requires CallLooping(w.g, st0, s0, st, s, gray, m, |w.g.Requested(m)|, index, t)
    ensures var (st1, thrown) := RunBody(w, st, m);
      && st0.log <= st1.log
      && (thrown.None? ==> CallRun(w.g, st0, s0, st1, s, gray, m, index, t))
      && (thrown.Some? ==> Thrown(w.g, st1, s, t))
      && EvolvesAll(st0.recs, st1.recs)
  {
    RunBodyOk(w, st0, s0, st, s, gray, m, index, t);
    hide CallLooping, Thrown, Evaluates, Looping, Extends, Grows, ParentsAbove, View;
    RunCallFrame(w, st0, s0, st, s, gray, m, index, t);
    hide RunBody, EvolvesAll;
    GrowsEvolves(st0.recs, RunBody(w, st, m).0.recs, s0, s);
  }

  lemma RunCallFrame(w: World, st0: State, s0: seq<Id>, st: State, s: seq<Id>, gray: set<Id>, m: Id, index: int, t: Id)
    requires CallLooping(w.g, st0, s0, st, s, gray, m, |w.g.Requested(m)|, index, t)
    ensures var st1 := RunBody(w, st, m).0;
      && st0.log <= st1.log && m < |st1.recs| && w.g.Cyclic(m)
      && Looping(Imports(w.g), View(w.g, st1.recs, s), gray, |s0|, m, |w.g.Requested(m)|)
      && Extends(View(w.g, st0.recs, s0), View(w.g, st1.recs, s))
      && Grows(st0.recs, st1.recs, s0, s) && ParentsAbove(st1.recs, s, |s0|)
      && (forall x | x in s :: At(Linker.Indices(st1.recs), x) < index)
  {
    var g := w.g;
    LoopFacts(g, st0, s0, st, s, gray, m, |g.Requested(m)|, index, t);
    hide Looping, Extends, Grows, ParentsAbove, View;
    GrayFacts(g, st, s, gray + {m}, m, t);
    EvaluatesRecords(g, st, s, gray + {m}, None, t);
    hide Evaluates, RecordsOk, RootsOk;
    RunShape(w, st, m);
    var r1 := RunBody(w, st, m).0.recs;
    hide RunBody;
    RunFrame(g, st.recs, s, m, r1[m], st.asyncOrder + 1, |s0|);
    RunGrows(st0.recs, st.recs, r1, s0, s);
  }

  lemma RunGrows(r0: Recs, r1: Recs, r2: Recs, s0: seq<Id>, s: seq<Id>)
    requires Grows(r0, r1, s0, s) && Grows(r1, r2, s, s)
    ensures Grows(r0, r2, s0, s)
  {
    GrowsTrans(r0, r1, r2, s0, s, s);
  }

  lemma LoopingPops(g: Graph, st: State, s: seq<Id>, base: nat, gray: set<Id>, m: Id)
    requires Looping(Imports(g), View(g, st.recs, s), gray, base, m, |g.Requested(m)|)
    requires ParentsAbove(st.recs, s, base) && m < |st.recs| && g.Cyclic(m)
    requires st.recs[m].dfsAncestorIndex == st.recs[m].dfsIndex
    ensures Popping(g, st.recs, s, base, gray, m)
  {
    var succ, d := Imports(g), View(g, st.recs, s);
    assert succ(m) == g.Requested(m);
    assert At(d.low, m) == At(d.num, m);
    SegmentIsComponent(succ, d, gray, base, m);
    SegmentClosed(succ, d, gray, base, m);
    hide Reach, Leans, LowAt, LowLinked, Leaning, Scc.Finished, Looked, Bounded, Chained, ParentsAbove, Scc.IsComponent,
         Gone;
    forall x | x in s[base..] ensures x !in gray && x in s && x !in s[..base] {
      InSplit(s, base, x);
      if x in s[..base] { NumberedApart(d.done, s, d.num, base, x, x); }
    }
    forall x | x in s ensures x in s[..base] || x in s[base..] { InSplit(s, base, x); }
    forall x, y | x in s[base..] && y in g.Requested(x) ensures !(y in s[..base]) {
      assert x in Pop(d, base).done && y in succ(x);
      PopApart(d, base, y);
    }
  }

  lemma PopApart(d: Dfs, base: nat, y: Id)
    requires Numbered(d.done, d.stack, d.num) && base <= |d.stack| && y in Pop(d, base).done
    ensures y !in d.stack[..base]
  {
    PopNumbered(d, base);
    hide Pop;
  }

  lemma PopEvaluates(g: Graph, st0: State, s0: seq<Id>, st: State, s: seq<Id>, gray: set<Id>, m: Id, t: Id, st1: State)
    requires Evaluates(g, st0, s0, gray, None, t)
    requires Evaluates(g, st, s, gray, Some(m), t) && Grows(st0.recs, st.recs, s0, s)
    requires Popping(g, st.recs, s, |s0|, gray, m)
    requires PopsTo(st.recs, st1.recs, s[|s0|..], m) && st1 == st.(recs := st1.recs)
    ensures Evaluates(g, st1, s0, gray, Some(m), t) && Grows(st0.recs, st1.recs, s0, s0)
  {
    var base := |s0|;
    hide Structure, StackOk, BlackMet, BlackAnchored, CountsOn, StartedFree, AsyncReachesTLA, Entries, Completions,
         Popping, PopsTo;
    assert s[..base] == s0;
    PopStructure(g, st.recs, s, base, gray, m, st1.recs);
    PopGrows(g, st0.recs, st.recs, s, base, gray, m, st1.recs);
    PopStack(g, st0.recs, st.recs, s, base, gray, m, st1.recs);
    PopCounts(g, st.recs, s, base, gray, m, st1.recs);
    PopEntries(g, st, s, base, gray, m, t, st1);
  }

  lemma LoopingDifferent(g: Graph, st: State, s: seq<Id>, base: nat, gray: set<Id>, m: Id)
    requires Looping(Imports(g), View(g, st.recs, s), gray, base, m, |g.Requested(m)|)
    ensures forall i, j | 0 <= i < j < |s| :: s[i] != s[j]
    ensures base < |s| && s[base] == m
  {
    hide Chained, LowLinked, Leaning, Scc.Finished, Closed, Bounded, Looked;
  }

  lemma PopReturned(g: Graph, st0: State, s0: seq<Id>, st: State, s: seq<Id>, gray: set<Id>, m: Id, st1: State)
    requires Looping(Imports(g), View(g, st.recs, s), gray, |s0|, m, |g.Requested(m)|)
    requires Extends(View(g, st0.recs, s0), View(g, st.recs, s))
    requires m < |st.recs| && st.recs[m].dfsAncestorIndex == st.recs[m].dfsIndex
    requires |s0| <= |s| && s[..|s0|] == s0 && PopsTo(st.recs, st1.recs, s[|s0|..], m)
    requires forall x | x in s[|s0|..] :: x < |st.recs|
    ensures Returned(Imports(g), View(g, st0.recs, s0), View(g, st1.recs, s0), gray, m)
  {
    hide Looping, Extends, Gone, Returned, Scc.IsComponent;
    var d := View(g, st.recs, s);
    assert At(d.low, m) == At(d.num, m);
    assert Imports(g)(m) == g.Requested(m);
    PopComponent(Imports(g), View(g, st0.recs, s0), d, gray, m);
    PopView(g, st.recs, s, |s0|, m, st1.recs);
  }

  /** The call for `m` pops its component. */
  lemma PopCall(w: World, st0: State, s0: seq<Id>, st: State, s: seq<Id>, gray: set<Id>, m: Id, index: int, t: Id)
    requires Evaluates(w.g, st0, s0, gray, None, t)
    requires CallRun(w.g, st0, s0, st, s, gray, m, index, t)
    requires st.recs[m].dfsAncestorIndex == st.recs[m].dfsIndex
    ensures var (st1, s1) := PopTo(st, s, m);
      && CallDone(w.g, st0, s0, st1, s1, gray, m, index, t)
      && s1 == s0 && Root(st1.recs, m) == m && Rooted(st1.recs, m) && !Errored(st1.recs, m)
  {
    var g, base := w.g, |s0|;
    hide Evaluates, Looping, Extends, Grows, ParentsAbove, View, Returned, Popping, PopsTo;
    LoopingDifferent(g, st, s, base, gray, m);
    LoopingPops(g, st, s, base, gray, m);
    PopToOk(st, s, base, m);
    var (st1, s1) := PopTo(st, s, m);
    hide PopTo;
    assert s[..base] == s0 by { GrowsPrefix(st0.recs, st.recs, s0, s); }
    PopShape(g, st, s, base, gray, m, t, st1.recs);
    PopReturned(g, st0, s0, st, s, gray, m, st1);
    PopEvaluates(g, st0, s0, st, s, gray, m, t, st1);
    PopIndices(st.recs, st1.recs, s[base..], m);
    AboveNothing(st1.recs, s0);
    hide Linker.Indices;
    assert forall x | x in s0 :: x in s by { GrowsPrefix(st0.recs, st.recs, s0, s); }
  }

  lemma GrowsPrefix(r0: Recs, r1: Recs, s0: seq<Id>, s: seq<Id>)
    requires Grows(r0, r1, s0, s)
    ensures |s0| <= |s| && s[..|s0|] == s0 && forall x | x in s0 :: x in s
  {
    hide GrowsAt;
    forall x | x in s0 ensures x in s { var k :| 0 <= k < |s0| && s0[k] == x; assert s[k] == x; }
  }

  lemma AboveNothing(recs: Recs, s: seq<Id>)
    ensures ParentsAbove(recs, s, |s|)
  {
  }

  lemma PopShape(g: Graph, st: State, s: seq<Id>, base: nat, gray: set<Id>, m: Id, t: Id, r1: Recs)
    requires
      && Evaluates(g, st, s, gray, Some(m), t)
      && Popping(g, st.recs, s, base, gray, m)
      && PopsTo(st.recs, r1, s[base..], m)
    ensures Rooted(r1, m) && Root(r1, m) == m && !Errored(r1, m)
    ensures forall x | x in s[base..] :: x < |st.recs|
  {
    hide BlackMet, BlackAnchored, CountsOn, StartedFree, AsyncReachesTLA, Entries, Completions;
    PopFacts(g, st.recs, s, base, gray, m, r1);
  }

  /** The call for `m` leaves it on the stack. */
  lemma KeepCall(w: World, st0: State, s0: seq<Id>, st: State, s: seq<Id>, gray: set<Id>, m: Id, index: int, t: Id)
    requires CallRun(w.g, st0, s0, st, s, gray, m, index, t)
    requires st.recs[m].dfsAncestorIndex != st.recs[m].dfsIndex
    ensures CallDone(w.g, st0, s0, st, s, gray, m, index, t) && m in s && !Errored(st.recs, m)
  {
    var d := View(w.g, st.recs, s);
    assert Imports(w.g)(m) == w.g.Requested(m);
    assert At(d.low, m) != At(d.num, m);
    Keep(Imports(w.g), View(w.g, st0.recs, s0), d, gray, m);
    assert m in s;
    KeepFine(w.g, st, s, gray, m, t);
    hide Looping, Extends, Grows, ParentsAbove, View, Evaluates, Returned;
  }

  lemma KeepFine(g: Graph, st: State, s: seq<Id>, gray: set<Id>, m: Id, t: Id)
    requires Evaluates(g, st, s, gray, Some(m), t) && m in s
    ensures !Errored(st.recs, m)
  {
    hide StackOk, BlackMet, BlackAnchored, CountsOn, StartedFree, AsyncReachesTLA, Entries, Completions, RootsOk,
         RequestsMet, EdgesUp, ErrorsUp, CycleParents;
    assert m < |st.recs| && RecordOk(g, m, st.recs[m], m in s);
  }

  // ── A synthetic module that throws ───────────────────────────────────────

  ghost predicate SyntheticFailed(a: Rec, b: Rec) {
    a.body.Unstarted? && b == a.(body := Over, hasError := true, error := b.error)
  }

  lemma SyntheticFailFacts(g: Graph, recs: Recs, s: seq<Id>, v: Id, r: Rec)
    requires RecordsOk(g, recs, s) && v < |recs| && !g.Cyclic(v) && SyntheticFailed(recs[v], r)
    ensures var r1 := recs[v := r];
      && RecordsOk(g, r1, s) && v !in s && !recs[v].hasError
      && (forall x: Id :: Waiting(r1, x) == Waiting(recs, x) && Fine(r1, x) == Fine(recs, x))
      && (forall x: Id :: Rooted(r1, x) == Rooted(recs, x) && Root(r1, x) == Root(recs, x))
      && (forall x: Id | x != v :: Errored(r1, x) == Errored(recs, x) && SyntheticDone(r1, x) == SyntheticDone(recs, x))
      && (forall x: Id | Errored(recs, x) :: Errored(r1, x))
      && (forall x: Id :: Parents(r1, x) == Parents(recs, x) && Order(r1, x) == Order(recs, x) && Async(r1, x) == Async(recs, x))
      && !SyntheticDone(recs, v) && !Rooted(recs, v)
  {
    assert RecordOk(g, v, recs[v], v in s);
    var r1 := recs[v := r];
    forall x: Id | x < |recs| ensures RecordOk(g, x, r1[x], x in s) { assert RecordOk(g, x, recs[x], x in s); }
  }

  lemma SyntheticFailStructure(g: Graph, recs: Recs, s: seq<Id>, v: Id, r: Rec)
    requires Structure(g, recs, s) && v < |recs| && !g.Cyclic(v) && SyntheticFailed(recs[v], r)
    ensures Structure(g, recs[v := r], s)
  {
    var r1 := recs[v := r];
    SyntheticFailFacts(g, recs, s, v, r);
    hide Reach, RecordsOk, SyntheticFailed;
    forall x: Id | Rooted(r1, x) ensures RootOk(g, r1, x) { assert RootOk(g, recs, x); }
    forall x: Id, y: Id | Rooted(r1, x) && y in g.Requested(x) ensures RequestMet(g, r1, x, y) {
      assert RequestMet(g, recs, x, y);
    }
    forall x: Id, p: Id | p in Parents(r1, x) && (Rooted(r1, x) || x in s) ensures EdgeOk(g, r1, s, x, p) {
      assert EdgeOk(g, recs, s, x, p);
    }
    forall x: Id | Rooted(r1, x) && Root(r1, x) != x && (Waiting(r1, x) || Errored(r1, x))
      ensures HasCycleParent(r1, x)
    {
      assert HasCycleParent(recs, x);
      var p :| p in Parents(recs, x) && Rooted(recs, p) && Root(recs, p) == Root(recs, x);
      assert p in Parents(r1, x) && Rooted(r1, p) && Root(r1, p) == Root(r1, x);
    }
  }

  lemma SyntheticFailCounts(g: Graph, recs: Recs, s: seq<Id>, v: Id, r: Rec)
    requires Structure(g, recs, s) && v < |recs| && !g.Cyclic(v) && SyntheticFailed(recs[v], r)
    requires CountsOn(recs, s) && StartedFree(recs) && AsyncReachesTLA(g, recs)
    ensures CountsOn(recs[v := r], s) && StartedFree(recs[v := r]) && AsyncReachesTLA(g, recs[v := r])
  {
    var r1 := recs[v := r];
    SyntheticFailFacts(g, recs, s, v, r);
    assert LiveOn(r1, s) == LiveOn(recs, s);
    var live := LiveOn(recs, s);
    hide RecordsOk, Occ, LiveOn, ReachesTLA, Reach, RequestsMet, EdgesUp, ErrorsUp, CycleParents, RootsOk;
    forall p: Id | Wake.Eligible(r1, p) || p in s ensures PendingOk(r1, live, p) {
      assert PendingOk(recs, live, p);
      OccSame(recs, r1, live, live, p);
    }
    forall p: Id | Wake.Eligible(r1, p) ensures StartOk(r1, p) { assert StartOk(recs, p); }
    forall x: Id | Async(r1, x) ensures ReachesTLA(g, x) { assert Async(recs, x); }
  }

  lemma SyntheticFailEntries(g: Graph, st: State, s: seq<Id>, v: Id, r: Rec, t: Id)
    requires RecordsOk(g, st.recs, s) && Entries(g, st, t) && Completions(st)
    requires v < |st.recs| && !g.Cyclic(v) && SyntheticFailed(st.recs[v], r)
    ensures var st1 := Note(Put(st, v, r), Began(v)); Entries(g, st1, t) && Completions(st1)
  {
    var st1 := Note(Put(st, v, r), Began(v));
    SyntheticFailFacts(g, st.recs, s, v, r);
    assert RecordOk(g, v, st.recs[v], v in s);
    SyntheticStarts(g, st.log, v);
    NoteStarts(g, st.log, Began(v));
    hide StartsInOrder, StartInOrder, RecordsOk;
    forall e: Event ensures EventCount(st1.log, e) == EventCount(st.log, e) + (if e == Began(v) then 1 else 0) {
      CountNote(st.log, Began(v), e);
    }
    forall x: Id ensures EntryOk(g, st1, t, x) { assert EntryOk(g, st, t, x); }
    forall x: Id | x < |st1.recs|
      ensures CompletionOk(st1.recs[x], st1.log, x)
    {
      assert CompletionOk(st.recs[x], st.log, x);
    }
  }

  lemma SyntheticFailEvolves(g: Graph, recs: Recs, s: seq<Id>, v: Id, r: Rec)
    requires RecordsOk(g, recs, s) && v < |recs| && !g.Cyclic(v) && SyntheticFailed(recs[v], r)
    ensures EvolvesAll(recs, recs[v := r])
  {
    assert RecordOk(g, v, recs[v], v in s);
    hide RecordsOk;
    var r1 := recs[v := r];
    forall x: Id ensures EvolvesAt(recs, r1, x) {}
  }

  lemma SyntheticThrows(w: World, st: State, s: seq<Id>, gray: set<Id>, v: Id, index: int, t: Id)
    requires MayEnter(w.g, st, s, gray, v, index, t) && !w.g.Cyclic(v)
    requires EvaluateSynthetic(w, st, v).1.Some?
    ensures var (st1, thrown) := EvaluateSynthetic(w, st, v);
      && Thrown(w.g, st1, s, t) && st.log <= st1.log && EvolvesAll(st.recs, st1.recs)
      && Errored(st1.recs, v) && st1.recs[v].error == thrown.value
  {
    if st.recs[v].body.Over? {
      EvaluatesThrown(w.g, st, s, gray, None, t);
      EvolvesRefl(st.recs);
      hide Evaluates, Thrown, EvolvesAll;
    } else {
      SyntheticUnstarted(w.g, st, s, gray, v, t);
      var r := st.recs[v].(body := Over, hasError := true, error := w.fails[v]);
      SyntheticFailStructure(w.g, st.recs, s, v, r);
      SyntheticFailCounts(w.g, st.recs, s, v, r);
      EvaluatesRecords(w.g, st, s, gray, None, t);
      SyntheticFailEntries(w.g, st, s, v, r, t);
      SyntheticFailEvolves(w.g, st.recs, s, v, r);
      hide EvolvesAll, Structure, CountsOn, StartedFree, AsyncReachesTLA, Entries, RecordsOk, RootsOk, StackOk,
           BlackMet, BlackAnchored;
      assert EvaluateSynthetic(w, st, v).0 == Note(Put(st, v, r), Began(v));
    }
  }

  lemma SyntheticUnstarted(g: Graph, st: State, s: seq<Id>, gray: set<Id>, v: Id, t: Id)
    requires Evaluates(g, st, s, gray, None, t) && v < |st.recs| && !g.Cyclic(v) && !st.recs[v].body.Over?
    ensures st.recs[v].body.Unstarted?
  {
    EvaluatesRecords(g, st, s, gray, None, t);
    hide Evaluates, RootsOk;
    assert RecordOk(g, v, st.recs[v], v in s);
  }

  // ── The whole walk ───────────────────────────────────────────────────────

  /** How a call for `v` that throws leaves the loader: `v` is on the stack, or it had
      failed before, or it is synthetic and has failed now. */
  ghost predicate CallThrew(g: Graph, st0: State, s0: seq<Id>, r: Walk, v: Id, t: Id) {
    && r.thrown.Some?
    && Thrown(g, r.st, r.stack, t) && st0.log <= r.st.log && EvolvesAll(st0.recs, r.st.recs)
    && v < |st0.recs|
    && (if g.Cyclic(v) && !Visited(st0.recs[v].status) then s0 + [v] <= r.stack
        else s0 == r.stack && Errored(r.st.recs, v) && r.st.recs[v].error == r.thrown.value)
  }

  ghost predicate LoopThrew(g: Graph, st0: State, s: seq<Id>, r: Walk, t: Id) {
    r.thrown.Some? && Thrown(g, r.st, r.stack, t) && st0.log <= r.st.log && EvolvesAll(st0.recs, r.st.recs) && s <= r.stack
  }

  /** A module whose call began and ended its component's search is its own cycle root. */
  ghost predicate OwnRoot(g: Graph, st0: State, r: Walk, v: Id) {
    && !Errored(r.st.recs, v)
    && (v < |st0.recs| && g.Cyclic(v) && !Visited(st0.recs[v].status) && v !in r.stack ==> Rooted(r.st.recs, v) && Root(r.st.recs, v) == v)
  }

  lemma DoneFine(g: Graph, st0: State, s0: seq<Id>, st: State, s: seq<Id>, gray: set<Id>, v: Id, index: int, t: Id)
    requires CallDone(g, st0, s0, st, s, gray, v, index, t) && !g.Cyclic(v)
    ensures !Errored(st.recs, v)
  {
    hide Evaluates, Returned, Grows, ParentsAbove;
  }

  lemma ChildMayEnter(g: Graph, st0: State, s0: seq<Id>, st: State, s: seq<Id>, gray: set<Id>, m: Id, i: nat,
                      index: int, t: Id)
    requires g.Loaded() && CallLooping(g, st0, s0, st, s, gray, m, i, index, t) && i < |g.Requested(m)|
    ensures MayEnter(g, st, s, gray + {m}, g.Requested(m)[i], index, t)
  {
    RequestedInRange(g, m, g.Requested(m)[i]);
    EvaluatesRecords(g, st, s, gray + {m}, None, t);
    assert Imports(g)(m) == g.Requested(m);
    StackReachesRequest(Imports(g), View(g, st.recs, s), gray, |s0|, m, i, g.Requested(m)[i]);
    hide Evaluates, Searching, Extends, Grows, ParentsAbove, Reach, Bounded, Looked;
  }

  lemma {:induction false} WalkOk(w: World, st: State, s: seq<Id>, gray: set<Id>, v: Id, index: int, t: Id)
    requires w.g.Loaded() && MayEnter(w.g, st, s, gray, v, index, t)
    ensures var r := InnerModuleEvaluation(w, st, s, v, index);
      if r.thrown.None? then CallDone(w.g, st, s, r.st, r.stack, gray, v, r.index, t) && OwnRoot(w.g, st, r, v)
      else CallThrew(w.g, st, s, r, v, t)
    decreases Unvisited(st), 0, 1
  {
    var g := w.g;
    var rec := st.recs[v];
    if !g.Cyclic(v) {
      if EvaluateSynthetic(w, st, v).1.None? {
        SyntheticCall(w, st, s, gray, v, index, t);
        hide CallDone, MayEnter;
        DoneFine(g, st, s, EvaluateSynthetic(w, st, v).0, s, gray, v, index, t);
      } else {
        SyntheticThrows(w, st, s, gray, v, index, t);
        hide MayEnter, Thrown, EvolvesAll;
      }
    } else if Visited(rec.status) {
      if rec.hasError && !rec.status.Evaluating? {
        EvaluatesThrown(g, st, s, gray, None, t);
        EvolvesRefl(st.recs);
        hide MayEnter, Thrown, EvolvesAll;
      } else {
        if rec.status.Evaluating? { VisitedFine(g, st, s, gray, v, t); }
        AlreadyIn(g, st, s, gray, v, index, t);
        hide MayEnter, CallDone;
      }
    } else {
      WalkFresh(w, st, s, gray, v, index, t);
    }
  }

  lemma VisitedFine(g: Graph, st: State, s: seq<Id>, gray: set<Id>, v: Id, t: Id)
    requires Evaluates(g, st, s, gray, None, t) && v < |st.recs| && g.Cyclic(v) && st.recs[v].status.Evaluating?
    ensures !st.recs[v].hasError
  {
    EvaluatesRecords(g, st, s, gray, None, t);
    hide Evaluates, RootsOk;
    assert RecordOk(g, v, st.recs[v], v in s);
  }

  lemma {:induction false} WalkFresh(w: World, st: State, s: seq<Id>, gray: set<Id>, v: Id, index: int, t: Id)
    requires w.g.Loaded() && MayEnter(w.g, st, s, gray, v, index, t) && w.g.Cyclic(v) && !Visited(st.recs[v].status)
    ensures var r := InnerModuleEvaluation(w, st, s, v, index);
      if r.thrown.None? then CallDone(w.g, st, s, r.st, r.stack, gray, v, r.index, t) && OwnRoot(w.g, st, r, v)
      else CallThrew(w.g, st, s, r, v, t)
    decreases Unvisited(st), 0, 0
  {
    var g := w.g;
    var st1 := Put(st, v, Entered(st.recs[v], index));
    EnterCall(g, st, s, gray, v, index, t);
    FreshUnfolds(w, st, s, v, index);
    hide CallLooping, MayEnter, LoopThrew, EvaluateRequests, InnerModuleEvaluation, FinishCall, Unvisited, CallDone,
         OwnRoot, Later;
    var looped := EvaluateRequests(w, st1, s + [v], v, 0, index + 1);
    LoopOk(w, st, s, st1, s + [v], gray, v, 0, index + 1, t);
    if looped.thrown.None? {
      FinishOk(w, st, s, index, looped.st, looped.stack, gray, v, looped.index, t);
      var r := FinishCall(w, looped.st, looped.stack, v, looped.index);
      if r.thrown.Some? { LoopIsCall(g, st, s, r, v, t); }
    } else {
      LoopIsCall(g, st, s, looped, v, t);
    }
  }

  lemma LoopIsCall(g: Graph, st: State, s: seq<Id>, r: Walk, v: Id, t: Id)
    requires LoopThrew(g, st, s + [v], r, t) && v < |st.recs| && g.Cyclic(v) && !Visited(st.recs[v].status)
    ensures CallThrew(g, st, s, r, v, t)
  {
    hide Thrown, EvolvesAll;
  }

  ghost predicate LoopEnds(g: Graph, st0: State, s0: seq<Id>, r: Walk, gray: set<Id>, m: Id, t: Id) {
    if r.thrown.None? then CallLooping(g, st0, s0, r.st, r.stack, gray, m, |g.Requested(m)|, r.index, t)
    else LoopThrew(g, st0, s0 + [m], r, t)
  }

  lemma {:induction false} LoopOk(w: World, st0: State, s0: seq<Id>, st: State, s: seq<Id>, gray: set<Id>, m: Id,
                                  i: nat, index: int, t: Id)
    requires w.g.Loaded() && CallLooping(w.g, st0, s0, st, s, gray, m, i, index, t) && i <= |w.g.Requested(m)|
    ensures LoopEnds(w.g, st0, s0, EvaluateRequests(w, st, s, m, i, index), gray, m, t)
    decreases Unvisited(st), 1, |w.g.Requested(m)| - i
  {
    if i == |w.g.Requested(m)| {
      hide CallLooping;
    } else {
      LoopUnfolds(w, st, s, m, i, index);
      LoopTurn(w, st0, s0, st, s, gray, m, i, index, t);
    }
  }

  lemma {:induction false} LoopTurn(w: World, st0: State, s0: seq<Id>, st: State, s: seq<Id>, gray: set<Id>, m: Id,
                                    i: nat, index: int, t: Id)
    requires w.g.Loaded() && CallLooping(w.g, st0, s0, st, s, gray, m, i, index, t) && i < |w.g.Requested(m)|
    ensures LoopEnds(w.g, st0, s0, EvaluateRequests(w, st, s, m, i, index), gray, m, t)
    decreases Unvisited(st), 1, |w.g.Requested(m)| - i, 0
  {
    hide *;
    var g, v := w.g, w.g.Requested(m)[i];
    LoopUnfolds(w, st, s, m, i, index);
    ChildMayEnter(g, st0, s0, st, s, gray, m, i, index, t);
    LoopPrefix(g, st0, s0, st, s, gray, m, i, index, t);
    var child := InnerModuleEvaluation(w, st, s, v, index);
    WalkOk(w, st, s, gray + {m}, v, index, t);
    var (st1, thrown) := AfterRequest(w, child.st, m, v);
    if child.thrown.Some? {
      ChildIsLoop(g, st0, s0, st, s, gray, m, child, v, t);
    } else if thrown.None? {
      AfterRequestOk(w, st0, s0, st, s, child.st, child.stack, gray, m, i, index, child.index, t);
      LoopOk(w, st0, s0, st1, child.stack, gray, m, i + 1, child.index, t);
    } else {
      LookThrows(w, st, s, child.st, child.stack, gray + {m}, m, v, child.index, t);
      LookIsLoop(g, st0, s0, st, s, gray, m, Walk(st1, child.stack, child.index, thrown), t);
    }
  }

  lemma LookIsLoop(g: Graph, st0: State, s0: seq<Id>, st: State, s: seq<Id>, gray: set<Id>, m: Id, r: Walk, t: Id)
    requires EvolvesAll(st0.recs, st.recs) && EvolvesAll(st.recs, r.st.recs)
    requires
      && s0 + [m] <= s
      && s <= r.stack
      && st0.log <= st.log
      && st.log <= r.st.log
      && r.thrown.Some?
      && Thrown(g, r.st, r.stack, t)
    ensures LoopEnds(g, st0, s0, r, gray, m, t)
  {
    EvolvesTrans(st0.recs, st.recs, r.st.recs);
    hide Thrown, EvolvesAll;
  }

  lemma ChildIsLoop(g: Graph, st0: State, s0: seq<Id>, st: State, s: seq<Id>, gray: set<Id>, m: Id, r: Walk, v: Id,
                    t: Id)
    requires EvolvesAll(st0.recs, st.recs) && s0 + [m] <= s && st0.log <= st.log && CallThrew(g, st, s, r, v, t)
    ensures LoopEnds(g, st0, s0, r, gray, m, t)
  {
    EvolvesTrans(st0.recs, st.recs, r.st.recs);
    hide Thrown, EvolvesAll;
    assert s <= r.stack;
  }

  /** The stack of a loop, and the log, extend what the call began with. */
  lemma LoopPrefix(g: Graph, st0: State, s0: seq<Id>, st: State, s: seq<Id>, gray: set<Id>, m: Id, i: nat, index: int,
                   t: Id)
    requires CallLooping(g, st0, s0, st, s, gray, m, i, index, t)
    ensures s0 + [m] <= s && st0.log <= st.log && EvolvesAll(st0.recs, st.recs)
  {
    hide Evaluates, Looping, Extends, ParentsAbove, Grows, EvolvesAll;
    LoopFacts(g, st0, s0, st, s, gray, m, i, index, t);
    GrowsEvolves(st0.recs, st.recs, s0, s);
    GrowsPrefix(st0.recs, st.recs, s0, s);
  }

  lemma LookThrows(w: World, st: State, s: seq<Id>, st1: State, s1: seq<Id>, gray: set<Id>, m: Id, v: Id, index: int,
                   t: Id)
    requires CallDone(w.g, st, s, st1, s1, gray, v, index, t) && AfterRequest(w, st1, m, v).1.Some?
    ensures AfterRequest(w, st1, m, v).0 == st1 && Thrown(w.g, st1, s1, t) && st.log <= st1.log && s <= s1
    ensures EvolvesAll(st.recs, st1.recs)
  {
    GrowsEvolves(st.recs, st1.recs, s, s1);
    hide Returned, ParentsAbove, GrowsAt, Evaluates, Thrown, EvolvesAll;
    EvaluatesThrown(w.g, st1, s1, gray, Some(v), t);
  }

  lemma FinishOk(w: World, st0: State, s0: seq<Id>, index0: int, st: State, s: seq<Id>, gray: set<Id>, m: Id,
                 index: int, t: Id)
    requires MayEnter(w.g, st0, s0, gray, m, index0, t)
    requires CallLooping(w.g, st0, s0, st, s, gray, m, |w.g.Requested(m)|, index, t)
    ensures var r := FinishCall(w, st, s, m, index);
      if r.thrown.None? then CallDone(w.g, st0, s0, r.st, r.stack, gray, m, r.index, t) && OwnRoot(w.g, st0, r, m)
      else LoopThrew(w.g, st0, s0 + [m], r, t)
  {
    assert Evaluates(w.g, st0, s0, gray, None, t) by { hide Evaluates; }
    RunCall(w, st0, s0, st, s, gray, m, index, t);
    LoopPrefix(w.g, st0, s0, st, s, gray, m, |w.g.Requested(m)|, index, t);
    var (st1, thrown) := RunBody(w, st, m);
    hide CallLooping, RunBody, Thrown, CallDone, PopTo, MayEnter, Evaluates, EvolvesAll;
    if thrown.None? {
      RunIn(w.g, st0, s0, st1, s, gray, m, index, t);
      hide CallRun;
      if st1.recs[m].dfsAncestorIndex == st1.recs[m].dfsIndex {
        PopCall(w, st0, s0, st1, s, gray, m, index, t);
      } else {
        KeepCall(w, st0, s0, st1, s, gray, m, index, t);
      }
    }
  }

  lemma RunIn(g: Graph, st0: State, s0: seq<Id>, st: State, s: seq<Id>, gray: set<Id>, m: Id, index: int, t: Id)
    requires CallRun(g, st0, s0, st, s, gray, m, index, t)
    ensures m < |st.recs|
  {
    hide Evaluates, Looping, Extends, Grows, ParentsAbove;
  }
}
