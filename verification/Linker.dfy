/** Link and InnerModuleLinking: instantiate a module graph, component by component. */
module Linker {
  import opened ModuleGraph
  import opened Reachability
  import opened Exports
  import opened Records
  import opened Scc

  // ── What linking sees of a record ────────────────────────────────────────

  predicate Past(s: Status) {
    s.Linked? || s.Evaluating? || s.EvaluatingAsync? || s.Evaluated?
  }

  /** The records linking has nothing more to do for. */
  ghost function Gone(g: Graph, recs: seq<Rec>): set<Id> {
    set x | x in IdsBelow(|recs|) && (!g.Cyclic(x) || Past(recs[x].status))
  }

  ghost function Indices(recs: seq<Rec>): Table {
    map x | x in IdsBelow(|recs|) :: recs[x].dfsIndex
  }

  ghost function AncestorIndices(recs: seq<Rec>): Table {
    map x | x in IdsBelow(|recs|) :: recs[x].dfsAncestorIndex
  }

  ghost function View(g: Graph, recs: seq<Rec>, stack: seq<Id>): Dfs {
    Dfs(Gone(g, recs), stack, Indices(recs), AncestorIndices(recs))
  }

  // ── What an import binding resolves to ───────────────────────────────────

  ghost predicate ImportResolves(g: Graph, m: Id, e: ImportEntry) {
    e.name.Some? ==> Meaning(g, Query(g.Target(m, e.req), e.name.value)).Found?
  }

  ghost function SlotOf(g: Graph, m: Id, e: ImportEntry): ImportSlot
    requires ImportResolves(g, m, e)
  {
    if e.name.None? then NamespaceOf(g.Target(m, e.req))
    else
      var b := Meaning(g, Query(g.Target(m, e.req), e.name.value)).binding;
      if b.name.Namespace? then NamespaceOf(b.target) else BindingOf(b)
  }

  /** InitializeEnvironment succeeds: every named re-export and every import resolves to one binding. */
  ghost predicate Resolvable(g: Graph, m: Id) {
    g.Cyclic(m) ==>
      && (forall i | 0 <= i < |g.mods[m].indirects| && g.mods[m].indirects[i].importName.Some? ::
            Meaning(g, Query(m, g.mods[m].indirects[i].name)).Found?)
      && (forall i | 0 <= i < |g.mods[m].imports| :: ImportResolves(g, m, g.mods[m].imports[i]))
  }

  ghost predicate SlotsResolved(g: Graph, m: Id, imp: seq<ImportSlot>) {
    g.Cyclic(m) && Resolvable(g, m) && |imp| == |g.mods[m].imports|
    && forall i | 0 <= i < |imp| :: imp[i] == SlotOf(g, m, g.mods[m].imports[i])
  }

  /** A linked record: its imports are resolved; it has been compiled as a generator,
      and its environment already exists, iff it lies on an import cycle. */
  ghost predicate Instantiated(g: Graph, m: Id, r: Rec) {
    && SlotsResolved(g, m, r.imp)
    && r.code == (if OnCycle(Imports(g), m) then Generator else Plain)
    && (r.getters.Some? <==> OnCycle(Imports(g), m))
  }

  // ── The state of a link in progress ──────────────────────────────────────

  /** H1: whatever has been loaded has had its requests loaded. */
  ghost predicate LoadsSucceeded(g: Graph, recs: seq<Rec>) {
    |recs| == |g.mods| &&
    forall x: Id, y: Id | x < |recs| && y in g.Requested(x) && !recs[x].status.New? && g.Cyclic(y) :: y < |recs| && !recs[y].status.New?
  }

  /** The stack is the list of records whose status is `linking`. */
  ghost predicate OnStack(g: Graph, recs: seq<Rec>, stack: seq<Id>) {
    && |recs| == |g.mods|
    && (forall x | x in stack :: g.Cyclic(x) && recs[x].status.Linking?)
    && (forall x: Id | x < |recs| && recs[x].status.Linking? :: x in stack)
    && (forall x: Id | x < |recs| && (recs[x].status.Unlinked? || recs[x].status.Linking?) :: recs[x].getters.None?)
  }

  ghost predicate Prepared(g: Graph, recs: seq<Rec>, stack: seq<Id>, gray: set<Id>) {
    forall x | x in stack && x !in gray && x < |recs| :: SlotsResolved(g, x, recs[x].imp)
  }

  ghost predicate OnlyLinking(a: Rec, b: Rec) {
    && (b.status.Unlinked? || b.status.Linking? || b.status.Linked?)
    && (!b.status.Linked? ==> b.code == a.code && b.getters == a.getters)
    && b == a.(status := b.status, dfsIndex := b.dfsIndex, dfsAncestorIndex := b.dfsAncestorIndex,
               imp := b.imp, code := b.code, getters := b.getters)
  }

  ghost predicate RecordStep(g: Graph, a: Rec, b: Rec, m: Id, x: Id) {
    a == b || (a.status.Unlinked? && g.Cyclic(x) && Reach(Imports(g), m, x) && OnlyLinking(a, b)
               && (b.status.Linked? ==> Instantiated(g, x, b)))
  }

  /** A call for `m` changes unlinked records that `m` reaches and nothing else. */
  ghost predicate Changed(g: Graph, r0: seq<Rec>, r1: seq<Rec>, m: Id) {
    |r0| == |r1| && forall x: Id | x < |r0| :: RecordStep(g, r0[x], r1[x], m, x)
  }

  /** Some unlinked record that `m` reaches has an import or re-export that does not resolve. */
  ghost predicate SomeUnresolvable(g: Graph, r0: seq<Rec>, m: Id) {
    exists x: Id :: x < |r0| && r0[x].status.Unlinked? && Reach(Imports(g), m, x) && g.Cyclic(x) && !Resolvable(g, x)
  }

  lemma ChangedTrans(g: Graph, r0: seq<Rec>, r1: seq<Rec>, r2: seq<Rec>, m: Id, w: Id)
    requires Changed(g, r0, r1, m) && Changed(g, r1, r2, w)
    requires w == m || w in g.Requested(m)
    ensures Changed(g, r0, r2, m)
  {
    hide Reach, Instantiated;
    forall x: Id | x < |r0| ensures RecordStep(g, r0[x], r2[x], m, x) {
      assert RecordStep(g, r0[x], r1[x], m, x) && RecordStep(g, r1[x], r2[x], w, x);
      if r1[x] != r2[x] && w != m {
        assert w in Imports(g)(m);
        ReachStep(Imports(g), m, w, x);
      }
    }
  }

  lemma UnresolvableTrans(g: Graph, r0: seq<Rec>, r1: seq<Rec>, m: Id, w: Id)
    requires Changed(g, r0, r1, m) && SomeUnresolvable(g, r1, w)
    requires w in g.Requested(m)
    ensures SomeUnresolvable(g, r0, m)
  {
    hide Reach, Instantiated;
    var x: Id :| x < |r1| && r1[x].status.Unlinked? && Reach(Imports(g), w, x) && g.Cyclic(x) && !Resolvable(g, x);
    assert w in Imports(g)(m);
    ReachStep(Imports(g), m, w, x);
    assert RecordStep(g, r0[x], r1[x], m, x);
  }

  /** Everything a completed call for `m` promises. */
  ghost predicate CallDone(g: Graph, r0: seq<Rec>, s0: seq<Id>, r1: seq<Rec>, s1: seq<Id>, gray: set<Id>, m: Id,
                           index: int) {
    && OnStack(g, r1, s1)
    && Prepared(g, r1, s1, gray)
    && Returned(Imports(g), View(g, r0, s0), View(g, r1, s1), gray, m)
    && Changed(g, r0, r1, m)
    && (forall x | x in s1 :: At(Indices(r1), x) < index)
  }

  ghost predicate CallLooping(g: Graph, r0: seq<Rec>, s0: seq<Id>, r: seq<Rec>, s: seq<Id>, gray: set<Id>, m: Id,
                              i: nat, index: int) {
    && OnStack(g, r, s)
    && m < |r0| == |r| && m !in s0 && r0[m].status.Unlinked? && r[m].status.Linking?
    && Prepared(g, r, s, gray + {m})
    && Looping(Imports(g), View(g, r, s), gray, |s0|, m, i)
    && Extends(View(g, r0, s0), View(g, r, s))
    && Changed(g, r0, r, m)
    && (forall x | x in s :: At(Indices(r), x) < index)
  }

  /** A call that threw: the stack still lists the records being linked, and no record
      has gone without what it requests. */
  ghost predicate CallFailed(g: Graph, r0: seq<Rec>, s0: seq<Id>, r1: seq<Rec>, s1: seq<Id>, m: Id) {
    && OnStack(g, r1, s1) && s0 <= s1
    && Closed(Imports(g), Gone(g, r1))
    && Changed(g, r0, r1, m)
    && SomeUnresolvable(g, r0, m)
  }

  // ── Steps of a call, on values ───────────────────────────────────────────

  function Entered(r: Rec, index: int): Rec {
    r.(status := Linking, dfsIndex := index, dfsAncestorIndex := index)
  }

  lemma IndicesUpdate(r: seq<Rec>, m: Id, rec: Rec)
    requires m < |r|
    ensures Indices(r[m := rec]) == Indices(r)[m := rec.dfsIndex]
    ensures rec.dfsIndex == r[m].dfsIndex ==> Indices(r[m := rec]) == Indices(r)
  {
  }

  lemma AncestorIndicesUpdate(r: seq<Rec>, m: Id, rec: Rec)
    requires m < |r|
    ensures AncestorIndices(r[m := rec]) == AncestorIndices(r)[m := rec.dfsAncestorIndex]
    ensures rec.dfsAncestorIndex == r[m].dfsAncestorIndex ==> AncestorIndices(r[m := rec]) == AncestorIndices(r)
  {
  }

  lemma GoneUpdate(g: Graph, r: seq<Rec>, m: Id, rec: Rec)
    requires m < |r| && Past(rec.status) == Past(r[m].status)
    ensures Gone(g, r[m := rec]) == Gone(g, r)
  {
  }

  lemma ViewEnter(g: Graph, r: seq<Rec>, s: seq<Id>, m: Id, index: int)
    requires |r| == |g.mods| && m < |r| && g.Cyclic(m) && r[m].status.Unlinked?
    ensures View(g, r[m := Entered(r[m], index)], s + [m]) == Push(View(g, r, s), m, index)
  {
    hide Gone, Indices, AncestorIndices;
    GoneUpdate(g, r, m, Entered(r[m], index));
    IndicesUpdate(r, m, Entered(r[m], index));
    AncestorIndicesUpdate(r, m, Entered(r[m], index));
  }

  lemma EnterChanged(g: Graph, r: seq<Rec>, m: Id, index: int)
    requires m < |r| && g.Cyclic(m) && r[m].status.Unlinked?
    ensures Changed(g, r, r[m := Entered(r[m], index)], m)
  {
    ReachRefl(Imports(g), m);
    hide Reach, Instantiated;
  }

  lemma EnterOnStack(g: Graph, r: seq<Rec>, s: seq<Id>, m: Id, index: int)
    requires OnStack(g, r, s) && g.Cyclic(m) && m < |r| && r[m].status.Unlinked?
    ensures OnStack(g, r[m := Entered(r[m], index)], s + [m]) && m in s + [m] && m !in s
  {
    assert (s + [m])[|s|] == m;
    hide Resolvable, Reach;
  }

  lemma EnterBooks(g: Graph, r: seq<Rec>, s: seq<Id>, gray: set<Id>, m: Id, index: int)
    requires OnStack(g, r, s) && Prepared(g, r, s, gray)
    requires g.Cyclic(m) && r[m].status.Unlinked?
    requires forall x | x in s :: At(Indices(r), x) < index
    ensures var r1 := r[m := Entered(r[m], index)];
      && OnStack(g, r1, s + [m]) && Prepared(g, r1, s + [m], gray + {m}) && Changed(g, r, r1, m)
      && (forall x | x in s + [m] :: At(Indices(r1), x) < index + 1)
  {
    var r1 := r[m := Entered(r[m], index)];
    EnterOnStack(g, r, s, m, index);
    EnterChanged(g, r, m, index);
    IndicesUpdate(r, m, r1[m]);
    hide SlotsResolved, Indices, Changed, OnStack;
  }

  lemma EnterCall(g: Graph, r: seq<Rec>, s: seq<Id>, gray: set<Id>, m: Id, index: int)
    requires OnStack(g, r, s) && Prepared(g, r, s, gray)
    requires Searching(Imports(g), View(g, r, s), gray)
    requires g.Cyclic(m) && r[m].status.Unlinked?
    requires forall x | x in s :: At(Indices(r), x) < index && Reach(Imports(g), x, m)
    ensures CallLooping(g, r, s, r[m := Entered(r[m], index)], s + [m], gray, m, 0, index + 1)
  {
    EnterBooks(g, r, s, gray, m, index);
    ViewEnter(g, r, s, m, index);
    assert m !in s && m !in Gone(g, r);
    hide OnStack, Prepared, Changed, Reach;
    Enter(Imports(g), View(g, r, s), gray, m, index);
    hide Looping, Extends;
  }

  lemma ViewSame(g: Graph, r: seq<Rec>, s: seq<Id>, m: Id, rec: Rec)
    requires m < |r|
    requires rec.status == r[m].status && rec.dfsIndex == r[m].dfsIndex && rec.dfsAncestorIndex == r[m].dfsAncestorIndex
    ensures View(g, r[m := rec], s) == View(g, r, s)
  {
    hide Gone, Indices, AncestorIndices;
    GoneUpdate(g, r, m, rec);
    IndicesUpdate(r, m, rec);
    AncestorIndicesUpdate(r, m, rec);
  }

  lemma ViewLower(g: Graph, r: seq<Rec>, s: seq<Id>, m: Id, v: int)
    requires m < |r|
    ensures View(g, r[m := r[m].(dfsAncestorIndex := Min(r[m].dfsAncestorIndex, v))], s) == Lower(View(g, r, s), m, v)
  {
    var rec := r[m].(dfsAncestorIndex := Min(r[m].dfsAncestorIndex, v));
    assert At(AncestorIndices(r), m) == r[m].dfsAncestorIndex;
    hide Gone, Indices, AncestorIndices;
    GoneUpdate(g, r, m, rec);
    IndicesUpdate(r, m, rec);
    AncestorIndicesUpdate(r, m, rec);
  }

  /** Back from the call for the `i`-th request of `m`, which is not on the stack. */
  lemma ChildCallDone(g: Graph, r0: seq<Rec>, s0: seq<Id>, r: seq<Rec>, s: seq<Id>, r1: seq<Rec>, s1: seq<Id>,
                      gray: set<Id>, m: Id, i: nat, index: int, index1: int)
    requires CallLooping(g, r0, s0, r, s, gray, m, i, index)
    requires i < |g.Requested(m)|
    requires CallDone(g, r, s, r1, s1, gray + {m}, g.Requested(m)[i], index1)
    requires g.Requested(m)[i] !in s1
    ensures CallLooping(g, r0, s0, r1, s1, gray, m, i + 1, index1)
  {
    var w := g.Requested(m)[i];
    var d0, d, d1 := View(g, r0, s0), View(g, r, s), View(g, r1, s1);
    StatusOfChild(g, r, s, r1, s1, gray + {m}, w, index1);
    ChildDone(Imports(g), d, d1, gray, |s0|, m, i);
    ChildFrame(g, r0, s0, r, s, r1, s1, gray, m, i, index, index1);
    hide Looping, Returned, Extends, Changed, SlotsResolved;
  }

  lemma LowerBooks(g: Graph, r: seq<Rec>, s: seq<Id>, gray: set<Id>, m: Id, v: int, index: int)
    requires OnStack(g, r, s) && Prepared(g, r, s, gray) && m < |r|
    requires forall x | x in s :: At(Indices(r), x) < index
    ensures var r1 := r[m := r[m].(dfsAncestorIndex := v)];
      OnStack(g, r1, s) && Prepared(g, r1, s, gray) && (forall x | x in s :: At(Indices(r1), x) < index)
  {
    hide SlotsResolved;
    IndicesUpdate(r, m, r[m].(dfsAncestorIndex := v));
    hide Indices;
  }

  lemma ChildFrame(g: Graph, r0: seq<Rec>, s0: seq<Id>, r: seq<Rec>, s: seq<Id>, r1: seq<Rec>, s1: seq<Id>,
                   gray: set<Id>, m: Id, i: nat, index: int, index1: int)
    requires CallLooping(g, r0, s0, r, s, gray, m, i, index)
    requires i < |g.Requested(m)|
    requires CallDone(g, r, s, r1, s1, gray + {m}, g.Requested(m)[i], index1)
    ensures Extends(View(g, r0, s0), View(g, r1, s1))
    ensures Changed(g, r0, r1, m)
    ensures m < |r1| && r1[m] == r[m]
  {
    hide Looping, Searching, Bounded, SlotsResolved;
    ExtendsTrans(View(g, r0, s0), View(g, r, s), View(g, r1, s1));
    ChangedTrans(g, r0, r, r1, m, g.Requested(m)[i]);
    assert RecordStep(g, r[m], r1[m], g.Requested(m)[i], m);
  }

  lemma ChildLooping(g: Graph, r0: seq<Rec>, s0: seq<Id>, r: seq<Rec>, s: seq<Id>, r1: seq<Rec>, s1: seq<Id>,
                     gray: set<Id>, m: Id, i: nat, index: int, index1: int, w: Id, v: int)
    requires CallLooping(g, r0, s0, r, s, gray, m, i, index)
    requires i < |g.Requested(m)| && w == g.Requested(m)[i]
    requires CallDone(g, r, s, r1, s1, gray + {m}, w, index1)
    requires w in s1 && w < |r1| && m < |r1| && v == Min(r1[m].dfsAncestorIndex, r1[w].dfsAncestorIndex)
    ensures Looping(Imports(g), View(g, r1[m := r1[m].(dfsAncestorIndex := v)], s1), gray, |s0|, m, i + 1)
  {
    hide OnStack, Prepared, Changed, Looping, Returned, Gone;
    var d, d1 := View(g, r, s), View(g, r1, s1);
    ChildOnStack(Imports(g), d, d1, gray, |s0|, m, i);
    ViewLower(g, r1, s1, m, r1[w].dfsAncestorIndex);
    assert At(d1.low, w) == r1[w].dfsAncestorIndex;
  }

  /** Back from the call for the `i`-th request of `m`, which is still on the stack. */
  lemma ChildCallOnStack(g: Graph, r0: seq<Rec>, s0: seq<Id>, r: seq<Rec>, s: seq<Id>, r1: seq<Rec>, s1: seq<Id>,
                         gray: set<Id>, m: Id, i: nat, index: int, index1: int)
    requires CallLooping(g, r0, s0, r, s, gray, m, i, index)
    requires i < |g.Requested(m)|
    requires CallDone(g, r, s, r1, s1, gray + {m}, g.Requested(m)[i], index1)
    requires g.Requested(m)[i] in s1
    ensures m < |r1| && g.Requested(m)[i] < |r1|
    ensures CallLooping(g, r0, s0, r1[m := r1[m].(dfsAncestorIndex := Min(r1[m].dfsAncestorIndex, r1[g.Requested(m)[i]].dfsAncestorIndex))],
                        s1, gray, m, i + 1, index1)
  {
    var w := g.Requested(m)[i];
    StatusOfChild(g, r, s, r1, s1, gray + {m}, w, index1);
    ChildFrame(g, r0, s0, r, s, r1, s1, gray, m, i, index, index1);
    var v := Min(r1[m].dfsAncestorIndex, r1[w].dfsAncestorIndex);
    ChildLooping(g, r0, s0, r, s, r1, s1, gray, m, i, index, index1, w, v);
    hide Looping, Extends, Returned;
    ViewLower(g, r1, s1, m, r1[w].dfsAncestorIndex);
    LowerChanged(g, r0, r1, m, v);
    LowerExtends(View(g, r0, s0), View(g, r1, s1), m, r1[w].dfsAncestorIndex);
    LowerBooks(g, r1, s1, gray + {m}, m, v, index1);
    hide Changed, Prepared, OnStack, Indices, AncestorIndices, Gone, Lower;
  }

  lemma LowerExtends(d0: Dfs, d: Dfs, m: Id, v: int)
    requires Extends(d0, d) && m !in d0.stack
    ensures Extends(d0, Lower(d, m, v))
  {
  }

  lemma LowerChanged(g: Graph, r0: seq<Rec>, r: seq<Rec>, m: Id, v: int)
    requires Changed(g, r0, r, m) && m < |r| && r[m].status.Linking? && r0[m].status.Unlinked?
    ensures Changed(g, r0, r[m := r[m].(dfsAncestorIndex := v)], m)
  {
    hide Reach, Instantiated;
    var r1 := r[m := r[m].(dfsAncestorIndex := v)];
    forall x: Id | x < |r0| ensures RecordStep(g, r0[x], r1[x], m, x) {
      assert RecordStep(g, r0[x], r[x], m, x);
    }
  }

  lemma ExtendsTrans(d0: Dfs, d1: Dfs, d2: Dfs)
    requires Extends(d0, d1) && Extends(d1, d2)
    ensures Extends(d0, d2)
  {
    forall x | x in d0.stack ensures x in d1.stack {
      var k :| 0 <= k < |d0.stack| && d0.stack[k] == x;
      assert d1.stack[k] == x;
    }
  }

  lemma StatusOfChild(g: Graph, r: seq<Rec>, s: seq<Id>, r1: seq<Rec>, s1: seq<Id>, gray: set<Id>, w: Id, index1: int)
    requires CallDone(g, r, s, r1, s1, gray, w, index1)
    ensures w in s1 ==> g.Cyclic(w) && w < |r1| && r1[w].status.Linking?
    ensures w !in s1 ==> w in Gone(g, r1) && !(w < |r1| && g.Cyclic(w) && r1[w].status.Linking?)
  {
    hide Searching, Changed, Prepared, Bounded;
  }

  // ── Environments ─────────────────────────────────────────────────────────

  lemma EnvironmentReady(g: Graph, r0: seq<Rec>, s0: seq<Id>, r: seq<Rec>, s: seq<Id>, gray: set<Id>, m: Id, index: int,
                         slots: seq<ImportSlot>)
    requires CallLooping(g, r0, s0, r, s, gray, m, |g.Requested(m)|, index)
    requires SlotsResolved(g, m, slots)
    ensures var r1 := r[m := r[m].(imp := slots)];
      CallLooping(g, r0, s0, r1, s, gray, m, |g.Requested(m)|, index) && Prepared(g, r1, s, gray)
  {
    var r1 := r[m := r[m].(imp := slots)];
    ViewSame(g, r, s, m, r1[m]);
    hide SlotsResolved, Looping, Extends;
    EnvironmentChanged(g, r0, r, m, slots);
    EnvironmentBooks(g, r, s, gray, m, index, slots);
    hide Changed, OnStack, Prepared;
  }

  lemma EnvironmentBooks(g: Graph, r: seq<Rec>, s: seq<Id>, gray: set<Id>, m: Id, index: int, slots: seq<ImportSlot>)
    requires OnStack(g, r, s) && Prepared(g, r, s, gray + {m}) && m < |r| && SlotsResolved(g, m, slots)
    requires forall x | x in s :: At(Indices(r), x) < index
    ensures var r1 := r[m := r[m].(imp := slots)];
      OnStack(g, r1, s) && Prepared(g, r1, s, gray) && (forall x | x in s :: At(Indices(r1), x) < index)
    ensures Prepared(g, r[m := r[m].(imp := slots)], s, gray + {m})
  {
    hide SlotsResolved;
    IndicesUpdate(r, m, r[m].(imp := slots));
    hide Indices;
  }

  lemma EnvironmentChanged(g: Graph, r0: seq<Rec>, r: seq<Rec>, m: Id, slots: seq<ImportSlot>)
    requires Changed(g, r0, r, m) && m < |r| && r[m].status.Linking? && r0[m].status.Unlinked?
    ensures Changed(g, r0, r[m := r[m].(imp := slots)], m)
  {
    hide Reach, Instantiated;
    var r1 := r[m := r[m].(imp := slots)];
    forall x: Id | x < |r0| ensures RecordStep(g, r0[x], r1[x], m, x) {
      assert RecordStep(g, r0[x], r[x], m, x);
    }
  }

  // ── Components ───────────────────────────────────────────────────────────

  ghost predicate NonEmptyComponent(g: Graph, c: seq<Id>) {
    |c| > 0 && IsComponent(Imports(g), c, c[0])
  }

  ghost predicate NewlyLinked(r0: seq<Rec>, r1: seq<Rec>, x: Id) {
    x < |r0| == |r1| && r0[x].status.Unlinked? && r1[x].status.Linked?
  }

  /** The records linked between `r0` and `r1` are exactly the members of `cs`, and each
      element of `cs` is one strongly connected component, listed once. */
  ghost predicate NewComponents(g: Graph, r0: seq<Rec>, r1: seq<Rec>, cs: seq<seq<Id>>) {
    && (forall i | 0 <= i < |cs| :: NonEmptyComponent(g, cs[i]))
    && (forall i, j, x | 0 <= i < j < |cs| && x in cs[i] :: x !in cs[j])
    && (forall i, x | 0 <= i < |cs| && x in cs[i] :: NewlyLinked(r0, r1, x))
    && (forall x: Id | NewlyLinked(r0, r1, x) :: exists i :: 0 <= i < |cs| && x in cs[i])
  }

  lemma NoComponents(g: Graph, r0: seq<Rec>, r1: seq<Rec>)
    requires |r0| == |r1| && forall x: Id | x < |r0| && r0[x].status.Unlinked? :: !r1[x].status.Linked?
    ensures NewComponents(g, r0, r1, [])
  {
  }

  lemma MoreComponents(g: Graph, r0: seq<Rec>, r: seq<Rec>, r1: seq<Rec>, m: Id, w: Id, cs: seq<seq<Id>>,
                       cs1: seq<seq<Id>>)
    requires Changed(g, r0, r, m) && Changed(g, r, r1, w)
    requires NewComponents(g, r0, r, cs) && NewComponents(g, r, r1, cs1)
    ensures NewComponents(g, r0, r1, cs + cs1)
  {
    hide NonEmptyComponent, Instantiated, Reach;
    var all := cs + cs1;
    forall i, x | 0 <= i < |all| && x in all[i] ensures NewlyLinked(r0, r1, x) {
      if i < |cs| {
        assert all[i] == cs[i] && NewlyLinked(r0, r, x);
        assert RecordStep(g, r[x], r1[x], w, x);
      } else {
        assert all[i] == cs1[i - |cs|] && NewlyLinked(r, r1, x);
        assert RecordStep(g, r0[x], r[x], m, x);
      }
    }
    forall i, j, x | 0 <= i < j < |all| && x in all[i] ensures x !in all[j] {
      if j < |cs| {
        assert all[i] == cs[i] && all[j] == cs[j];
      } else if i < |cs| {
        assert all[i] == cs[i] && NewlyLinked(r0, r, x);
        assert all[j] == cs1[j - |cs|] && !NewlyLinked(r, r1, x);
      } else {
        assert all[i] == cs1[i - |cs|] && all[j] == cs1[j - |cs|];
      }
    }
    forall x: Id | NewlyLinked(r0, r1, x) ensures exists i :: 0 <= i < |all| && x in all[i] {
      assert RecordStep(g, r0[x], r[x], m, x) && RecordStep(g, r[x], r1[x], w, x);
      if NewlyLinked(r0, r, x) {
        var i :| 0 <= i < |cs| && x in cs[i];
        assert x in all[i];
      } else {
        assert NewlyLinked(r, r1, x);
        var i :| 0 <= i < |cs1| && x in cs1[i];
        assert x in all[|cs| + i];
      }
    }
  }

  /** A component with two members, or one that requests itself, and only such a
      component, consists of modules on an import cycle. */
  lemma ComponentOnCycle(g: Graph, c: seq<Id>, m: Id, x: Id)
    requires IsComponent(Imports(g), c, m) && m in c && x in c
    requires forall i, j | 0 <= i < j < |c| :: c[i] != c[j]
    ensures OnCycle(Imports(g), x) <==> (|c| > 1 || m in g.Requested(m))
  {
    hide Reach;
    var succ := Imports(g);
    assert MutualReach(succ, m, x);
    if |c| > 1 {
      var y := if c[0] == x then c[1] else c[0];
      assert y in c && y != x;
      assert MutualReach(succ, m, y);
      ReachTrans(succ, x, m, y);
      ReachTrans(succ, y, m, x);
      var z := ReachUnroll(succ, x, y);
      ReachTrans(succ, z, y, x);
    } else {
      assert c == [m] && x == m;
      if m in g.Requested(m) { ReachRefl(succ, m); assert m in succ(m); }
      if OnCycle(succ, x) {
        var y :| y in succ(x) && Reach(succ, y, x);
        ReachEdge(succ, x, y);
        assert MutualReach(succ, m, y);
        assert y in c;
      }
    }
  }

  /** The records of the popped segment are linked and built; nothing else changes. */
  ghost predicate Built(r: seq<Rec>, r1: seq<Rec>, segment: seq<Id>, cyclic: bool) {
    && |r| == |r1|
    && (forall x: Id | x < |r| && x !in segment :: r1[x] == r[x])
    && (forall x: Id | x < |r| && x in segment ::
          && r1[x] == r[x].(status := Linked, code := if cyclic then Generator else Plain, getters := r1[x].getters)
          && (if cyclic then r1[x].getters.Some? else r1[x].getters == r[x].getters))
  }

  lemma ViewPop(g: Graph, r: seq<Rec>, s: seq<Id>, base: nat, r1: seq<Rec>, cyclic: bool)
    requires OnStack(g, r, s) && base <= |s|
    requires Built(r, r1, s[base..], cyclic)
    ensures View(g, r1, s[..base]) == Pop(View(g, r, s), base)
  {
    BuiltGone(g, r, s, base, r1, cyclic);
    BuiltIndices(r, r1, s[base..], cyclic);
    hide Gone, Indices, AncestorIndices, Built, OnStack;
  }

  lemma BuiltIndices(r: seq<Rec>, r1: seq<Rec>, seg: seq<Id>, cyclic: bool)
    requires Built(r, r1, seg, cyclic)
    ensures Indices(r1) == Indices(r) && AncestorIndices(r1) == AncestorIndices(r)
  {
    forall x: Id | x < |r| ensures r1[x].dfsIndex == r[x].dfsIndex && r1[x].dfsAncestorIndex == r[x].dfsAncestorIndex {
      assert x in seg || r1[x] == r[x];
    }
    hide Built;
  }

  lemma BuiltGone(g: Graph, r: seq<Rec>, s: seq<Id>, base: nat, r1: seq<Rec>, cyclic: bool)
    requires OnStack(g, r, s) && base <= |s|
    requires Built(r, r1, s[base..], cyclic)
    ensures Gone(g, r1) == Gone(g, r) + (set x | x in s[base..])
  {
    var seg := s[base..];
    assert forall x | x in seg :: x in s && g.Cyclic(x);
  }

  lemma StackDistinct(g: Graph, r: seq<Rec>, s: seq<Id>)
    requires Numbered(Gone(g, r), s, Indices(r))
    ensures forall i, j | 0 <= i < j < |s| :: s[i] != s[j]
  {
  }

  lemma BelowApart(s: seq<Id>, base: nat)
    requires base <= |s| && forall i, j | 0 <= i < j < |s| :: s[i] != s[j]
    ensures forall x | x in s[..base] :: x in s && x !in s[base..]
    ensures forall x | x in s && x !in s[base..] :: x in s[..base]
  {
    forall x: Id ensures x in s <==> x in s[..base] || x in s[base..] { InSplit(s, base, x); }
    forall x | x in s[..base] ensures x !in s[base..] {
      var i :| 0 <= i < base && s[..base][i] == x;
      assert s[i] == x;
    }
  }

  lemma PopOnStack(g: Graph, r: seq<Rec>, s: seq<Id>, base: nat, r1: seq<Rec>, cyclic: bool)
    requires OnStack(g, r, s) && base <= |s|
    requires forall i, j | 0 <= i < j < |s| :: s[i] != s[j]
    requires Built(r, r1, s[base..], cyclic)
    ensures OnStack(g, r1, s[..base])
  {
    BelowApart(s, base);
  }

  lemma PopBooks(g: Graph, r: seq<Rec>, s: seq<Id>, base: nat, gray: set<Id>, r1: seq<Rec>, cyclic: bool, index: int)
    requires OnStack(g, r, s) && base <= |s| && Prepared(g, r, s, gray)
    requires forall i, j | 0 <= i < j < |s| :: s[i] != s[j]
    requires Built(r, r1, s[base..], cyclic)
    requires forall x | x in s :: At(Indices(r), x) < index
    ensures OnStack(g, r1, s[..base]) && Prepared(g, r1, s[..base], gray)
    ensures forall x | x in s[..base] :: At(Indices(r1), x) < index
  {
    PopOnStack(g, r, s, base, r1, cyclic);
    hide SlotsResolved;
    BelowApart(s, base);
    BuiltIndices(r, r1, s[base..], cyclic);
    hide OnStack, Indices;
  }

  lemma PopChanged(g: Graph, r0: seq<Rec>, r: seq<Rec>, s: seq<Id>, base: nat, m: Id, r1: seq<Rec>, cyclic: bool)
    requires |r0| == |g.mods| && Changed(g, r0, r, m) && OnStack(g, r, s) && base < |s| && s[base] == m
    requires forall i, j | 0 <= i < j < |s| :: s[i] != s[j]
    requires forall x | x in s[base..] :: x < |r0| && SlotsResolved(g, x, r[x].imp) && r0[x].status.Unlinked?
    requires IsComponent(Imports(g), s[base..], m)
    requires cyclic == (|s[base..]| > 1 || m in g.Requested(m))
    requires Built(r, r1, s[base..], cyclic)
    ensures Changed(g, r0, r1, m)
  {
    hide Reach, SlotsResolved;
    var seg := s[base..];
    assert seg[0] == m;
    forall x: Id | x < |r0| ensures RecordStep(g, r0[x], r1[x], m, x) {
      assert RecordStep(g, r0[x], r[x], m, x);
      if x in seg {
        assert x in s;
        SegmentDistinct(s, base);
        ComponentOnCycle(g, seg, m, x);
        assert MutualReach(Imports(g), m, x);
      }
    }
  }

  lemma SegmentDistinct(s: seq<Id>, base: nat)
    requires base <= |s| && forall i, j | 0 <= i < j < |s| :: s[i] != s[j]
    ensures forall i, j | 0 <= i < j < |s[base..]| :: s[base..][i] != s[base..][j]
  {
    forall i, j | 0 <= i < j < |s[base..]| ensures s[base..][i] != s[base..][j] {
      assert s[base + i] != s[base + j];
    }
  }

  // ── The end of a call ────────────────────────────────────────────────────

  lemma KeepCall(g: Graph, r0: seq<Rec>, s0: seq<Id>, r: seq<Rec>, s: seq<Id>, gray: set<Id>, m: Id, index: int)
    requires CallLooping(g, r0, s0, r, s, gray, m, |g.Requested(m)|, index) && Prepared(g, r, s, gray)
    requires r[m].dfsAncestorIndex != r[m].dfsIndex
    ensures CallDone(g, r0, s0, r, s, gray, m, index)
  {
    hide Looping, Extends, Returned, Prepared, OnStack, Changed;
    Keep(Imports(g), View(g, r0, s0), View(g, r, s), gray, m);
  }

  /** Where the call sits on the stack. */
  lemma SegmentBegins(g: Graph, r0: seq<Rec>, s0: seq<Id>, r: seq<Rec>, s: seq<Id>, gray: set<Id>, m: Id, index: int)
    requires CallLooping(g, r0, s0, r, s, gray, m, |g.Requested(m)|, index)
    ensures |s0| < |s| && s[|s0|] == m && s[..|s0|] == s0
    ensures forall i, j | 0 <= i < j < |s| :: s[i] != s[j]
    ensures OnStack(g, r, s) && Changed(g, r0, r, m) && |r0| == |r|
  {
    hide Reach, Leans, LowAt, Chained, LowLinked, Leaning, Scc.Finished, Bounded, Looked, Closed, SlotsResolved,
         Instantiated, RecordStep;
    StackDistinct(g, r, s);
    assert s[..|s0|] == s0;
  }

  lemma GrayBelow(g: Graph, r0: seq<Rec>, s0: seq<Id>, r: seq<Rec>, s: seq<Id>, gray: set<Id>, m: Id, index: int)
    requires CallLooping(g, r0, s0, r, s, gray, m, |g.Requested(m)|, index) && s[..|s0|] == s0
    ensures forall x | x in gray :: x in s0
  {
    hide Reach, Searching, Bounded, Looked, Closed, SlotsResolved, Changed, OnStack, Extends;
  }

  lemma SegmentFacts(g: Graph, r0: seq<Rec>, s0: seq<Id>, r: seq<Rec>, s: seq<Id>, gray: set<Id>, m: Id, index: int)
    requires OnStack(g, r0, s0)
    requires CallLooping(g, r0, s0, r, s, gray, m, |g.Requested(m)|, index) && Prepared(g, r, s, gray)
    ensures |s0| < |s| && s[|s0|] == m && s[..|s0|] == s0
    ensures forall i, j | 0 <= i < j < |s| :: s[i] != s[j]
    ensures m in s[|s0|..]
    ensures forall x | x in s[|s0|..] ::
      x < |r0| == |r| && SlotsResolved(g, x, r[x].imp) && r0[x].status.Unlinked? && r[x].status.Linking?
  {
    SegmentBegins(g, r0, s0, r, s, gray, m, index);
    GrayBelow(g, r0, s0, r, s, gray, m, index);
    hide CallLooping, Reach, SlotsResolved, Instantiated;
    BelowApart(s, |s0|);
    assert s[|s0|..][0] == m;
    forall x | x in s[|s0|..]
      ensures x < |r0| == |r| && SlotsResolved(g, x, r[x].imp) && r0[x].status.Unlinked? && r[x].status.Linking? {
      InSplit(s, |s0|, x);
      assert RecordStep(g, r0[x], r[x], m, x);
    }
  }

  lemma PopCall(g: Graph, r0: seq<Rec>, s0: seq<Id>, r: seq<Rec>, s: seq<Id>, gray: set<Id>, m: Id, index: int,
                r1: seq<Rec>, cyclic: bool)
    requires OnStack(g, r0, s0)
    requires CallLooping(g, r0, s0, r, s, gray, m, |g.Requested(m)|, index) && Prepared(g, r, s, gray)
    requires r[m].dfsAncestorIndex == r[m].dfsIndex
    requires cyclic == (|s[|s0|..]| > 1 || m in g.Requested(m))
    requires Built(r, r1, s[|s0|..], cyclic)
    ensures CallDone(g, r0, s0, r1, s[..|s0|], gray, m, index)
    ensures IsComponent(Imports(g), s[|s0|..], m)
  {
    SegmentFacts(g, r0, s0, r, s, gray, m, index);
    PopComponent(Imports(g), View(g, r0, s0), View(g, r, s), gray, m);
    ViewPop(g, r, s, |s0|, r1, cyclic);
    PopBooks(g, r, s, |s0|, gray, r1, cyclic, index);
    hide Looping, Extends, Returned, Prepared, SlotsResolved, IsComponent;
    PopChanged(g, r0, r, s, |s0|, m, r1, cyclic);
  }

  lemma PopNewComponents(g: Graph, r0: seq<Rec>, r: seq<Rec>, r1: seq<Rec>, seg: seq<Id>, m: Id, cyclic: bool,
                         cs: seq<seq<Id>>, c: seq<Id>)
    requires IsComponent(Imports(g), seg, m) && m in seg
    requires |r0| == |r| && Built(r, r1, seg, cyclic)
    requires forall x | x in seg :: x < |r| && r[x].status.Linking? && r0[x].status.Unlinked?
    requires forall x :: x in c <==> x in seg
    requires NewComponents(g, r0, r, cs)
    ensures NewComponents(g, r0, r1, cs + [c])
  {
    ComponentAnyOrder(g, seg, m, c);
    hide IsComponent, NonEmptyComponent;
    var all := cs + [c];
    forall i, x | 0 <= i < |all| && x in all[i] ensures NewlyLinked(r0, r1, x) {
      if i < |cs| { assert all[i] == cs[i] && NewlyLinked(r0, r, x); }
    }
    forall i, j, x | 0 <= i < j < |all| && x in all[i] ensures x !in all[j] {
      assert all[i] == cs[i] && NewlyLinked(r0, r, x);
      if j < |cs| { assert all[j] == cs[j]; }
    }
    forall x: Id | NewlyLinked(r0, r1, x) ensures exists i :: 0 <= i < |all| && x in all[i] {
      if x in seg {
        assert x in all[|cs|];
      } else {
        assert NewlyLinked(r0, r, x);
        var i :| 0 <= i < |cs| && x in cs[i];
        assert x in all[i];
      }
    }
  }

  lemma ComponentAnyOrder(g: Graph, seg: seq<Id>, m: Id, c: seq<Id>)
    requires IsComponent(Imports(g), seg, m) && m in c
    requires forall x :: x in c <==> x in seg
    ensures NonEmptyComponent(g, c)
  {
    hide Reach;
    var h := c[0];
    assert h in c && MutualReach(Imports(g), m, h);
    forall x ensures x in c <==> MutualReach(Imports(g), h, x) {
      if x in c {
        assert MutualReach(Imports(g), m, x);
        ReachTrans(Imports(g), h, m, x);
        ReachTrans(Imports(g), x, m, h);
      }
      if MutualReach(Imports(g), h, x) {
        ReachTrans(Imports(g), m, h, x);
        ReachTrans(Imports(g), x, h, m);
      }
    }
  }

  // ── The methods ──────────────────────────────────────────────────────────

  ghost function Unlinkeds(recs: seq<Rec>): set<Id> {
    set x | x in IdsBelow(|recs|) && recs[x].status.Unlinked?
  }

  lemma AlreadyIn(g: Graph, r: seq<Rec>, s: seq<Id>, gray: set<Id>, m: Id, index: int)
    requires OnStack(g, r, s) && Prepared(g, r, s, gray) && m < |r|
    requires Searching(Imports(g), View(g, r, s), gray)
    requires !g.Cyclic(m) || !(r[m].status.New? || r[m].status.Unlinked?)
    requires forall x | x in s :: At(Indices(r), x) < index
    ensures CallDone(g, r, s, r, s, gray, m, index)
    ensures NewComponents(g, r, r, [])
  {
    hide Searching, SlotsResolved, Prepared;
    NoComponents(g, r, r);
    assert m in s || m in Gone(g, r);
  }

  lemma LoadsKept(g: Graph, r0: seq<Rec>, r: seq<Rec>, m: Id)
    requires LoadsSucceeded(g, r0) && Changed(g, r0, r, m)
    ensures LoadsSucceeded(g, r)
  {
    hide Reach, Instantiated;
    forall x: Id, y: Id | x < |r| && y in g.Requested(x) && !r[x].status.New? && g.Cyclic(y)
      ensures y < |r| && !r[y].status.New? {
      assert RecordStep(g, r0[x], r[x], m, x);
      assert RecordStep(g, r0[y], r[y], m, y);
    }
  }

  lemma UnlinkedsShrink(g: Graph, r0: seq<Rec>, r: seq<Rec>, m: Id)
    requires Changed(g, r0, r, m) && m < |r| && r0[m].status.Unlinked? && r[m].status.Linking?
    ensures Unlinkeds(r) < Unlinkeds(r0)
  {
    hide Reach, Instantiated;
    assert m in Unlinkeds(r0) && m !in Unlinkeds(r);
    forall x | x in Unlinkeds(r) ensures x in Unlinkeds(r0) {
      assert RecordStep(g, r0[x], r[x], m, x);
    }
  }

  lemma NoComponentsYet(g: Graph, r0: seq<Rec>, r: seq<Rec>, m: Id)
    requires m < |r0| == |r| && r == r0[m := r[m]] && !r[m].status.Linked?
    ensures NewComponents(g, r0, r, [])
  {
    NoComponents(g, r0, r);
  }

  lemma SetComponents(g: Graph, r0: seq<Rec>, r: seq<Rec>, m: Id, rec: Rec, cs: seq<seq<Id>>)
    requires m < |r| && NewComponents(g, r0, r, cs) && rec.status == r[m].status
    ensures NewComponents(g, r0, r[m := rec], cs)
  {
    hide NonEmptyComponent;
    var r1 := r[m := rec];
    forall x: Id ensures NewlyLinked(r0, r, x) <==> NewlyLinked(r0, r1, x) {}
  }

  /** What a call for `w` may assume when it is entered. */
  ghost predicate MayEnter(g: Graph, r: seq<Rec>, s: seq<Id>, gray: set<Id>, w: Id, index: int) {
    && w < |r| && LoadsSucceeded(g, r) && (g.Cyclic(w) ==> !r[w].status.New?)
    && OnStack(g, r, s) && Prepared(g, r, s, gray)
    && Searching(Imports(g), View(g, r, s), gray)
    && (forall x | x in s :: At(Indices(r), x) < index && Reach(Imports(g), x, w))
  }

  lemma LoopingSearches(succ: Succ, d: Dfs, gray: set<Id>, base: nat, m: Id, i: nat)
    requires Looping(succ, d, gray, base, m, i)
    ensures Searching(succ, d, gray + {m})
  {
  }

  /** The state in which `m` asks for its `i`-th request meets that call's preconditions. */
  lemma BeforeChild(g: Graph, r0: seq<Rec>, s0: seq<Id>, r: seq<Rec>, s: seq<Id>, gray: set<Id>, m: Id, i: nat,
                    index: int)
    requires g.Loaded() && LoadsSucceeded(g, r0)
    requires CallLooping(g, r0, s0, r, s, gray, m, i, index) && i < |g.Requested(m)|
    ensures MayEnter(g, r, s, gray + {m}, g.Requested(m)[i], index)
    ensures Unlinkeds(r) < Unlinkeds(r0)
  {
    var w := g.Requested(m)[i];
    LoopingSearches(Imports(g), View(g, r, s), gray, |s0|, m, i);
    hide Reach, Searching, Looping, Prepared, Changed, Extends;
    assert w in g.Requested(m);
    RequestedInRange(g, m, w);
    LoadsKept(g, r0, r, m);
    UnlinkedsShrink(g, r0, r, m);
    StackReachesRequest(Imports(g), View(g, r, s), gray, |s0|, m, i, w);
  }

  lemma ChildComponents(g: Graph, r0: seq<Rec>, s0: seq<Id>, r: seq<Rec>, s: seq<Id>, r1: seq<Rec>, s1: seq<Id>,
                        gray: set<Id>, m: Id, i: nat, index: int, index1: int, ok: bool, cs: seq<seq<Id>>, cs1: seq<seq<Id>>)
    requires CallLooping(g, r0, s0, r, s, gray, m, i, index) && i < |g.Requested(m)|
    requires ok ==> CallDone(g, r, s, r1, s1, gray + {m}, g.Requested(m)[i], index1)
    requires !ok ==> CallFailed(g, r, s, r1, s1, g.Requested(m)[i])
    requires NewComponents(g, r0, r, cs) && NewComponents(g, r, r1, cs1)
    ensures NewComponents(g, r0, r1, cs + cs1)
    ensures Changed(g, r0, r, m) && Changed(g, r, r1, g.Requested(m)[i]) && s0 <= s
  {
    assert Extends(View(g, r0, s0), View(g, r, s));
    hide Changed, Prepared, Searching, Looping, Returned, NewComponents, OnStack, SomeUnresolvable, Closed;
    MoreComponents(g, r0, r, r1, m, g.Requested(m)[i], cs, cs1);
  }

  lemma LoopShrinks(g: Graph, r0: seq<Rec>, s0: seq<Id>, r: seq<Rec>, s: seq<Id>, gray: set<Id>, m: Id, i: nat,
                    index: int)
    requires CallLooping(g, r0, s0, r, s, gray, m, i, index)
    ensures Unlinkeds(r) < Unlinkeds(r0)
  {
    hide Changed, Prepared, Searching, Looping, Extends, OnStack;
    UnlinkedsShrink(g, r0, r, m);
  }

  lemma SuffixSplit<T>(a: seq<T>, b: seq<T>, c: seq<T>)
    requires a <= b <= c
    ensures c[|a|..] == b[|a|..] + c[|b|..]
  {
  }

  lemma FailHere(g: Graph, r0: seq<Rec>, s0: seq<Id>, r: seq<Rec>, s: seq<Id>, gray: set<Id>, m: Id, index: int)
    requires CallLooping(g, r0, s0, r, s, gray, m, |g.Requested(m)|, index)
    requires g.Cyclic(m) && !Resolvable(g, m)
    ensures CallFailed(g, r0, s0, r, s, m)
  {
    ReachRefl(Imports(g), m);
    hide Reach, Leans, LowAt, Numbered, Chained, LowLinked, Leaning, Scc.Finished, Bounded, Looked, Closed,
         SlotsResolved, Changed;
  }

  lemma ChildFailed(g: Graph, r0: seq<Rec>, s0: seq<Id>, r: seq<Rec>, s: seq<Id>, r1: seq<Rec>, s1: seq<Id>, m: Id,
                    w: Id)
    requires s0 <= s && Changed(g, r0, r, m) && w in g.Requested(m)
    requires CallFailed(g, r, s, r1, s1, w)
    ensures CallFailed(g, r0, s0, r1, s1, m)
  {
    hide OnStack, Closed;
    ChangedTrans(g, r0, r, r1, m, w);
    UnresolvableTrans(g, r0, r, m, w);
  }

  /** Every re-export by name resolves to one binding. */
  method CheckReExports(g: Graph, m: Id) returns (ok: bool)
    requires g.Loaded() && g.Cyclic(m)
    ensures ok <==> forall i | 0 <= i < |g.mods[m].indirects| && g.mods[m].indirects[i].importName.Some? ::
        Meaning(g, Query(m, g.mods[m].indirects[i].name)).Found?
  {
    hide Meaning;
    var indirects := g.mods[m].indirects;
    for i := 0 to |indirects|
      invariant forall j | 0 <= j < i && indirects[j].importName.Some? :: Meaning(g, Query(m, indirects[j].name)).Found?
    {
      if indirects[i].importName.None? { continue; }
      var resolution := Resolve(g, m, indirects[i].name);
      if !resolution.Found? { return false; }
    }
    return true;
  }

  /** What each import of `m` reads, if every one of them resolves to one binding. */
  method ResolveImports(g: Graph, m: Id) returns (ok: bool, imp: seq<ImportSlot>)
    requires g.Loaded() && g.Cyclic(m)
    ensures ok <==> forall i | 0 <= i < |g.mods[m].imports| :: ImportResolves(g, m, g.mods[m].imports[i])
    ensures ok ==>
        |imp| == |g.mods[m].imports| && forall i | 0 <= i < |imp| :: imp[i] == SlotOf(g, m, g.mods[m].imports[i])
  {
    hide Meaning;
    var mod := g.mods[m];
    ok, imp := true, [];
    for i := 0 to |mod.imports|
      invariant |imp| == i
      invariant forall j | 0 <= j < i :: ImportResolves(g, m, mod.imports[j]) && imp[j] == SlotOf(g, m, mod.imports[j])
    {
      var e := mod.imports[i];
      var imported := mod.requested[e.req];
      if e.name.None? {
        imp := imp + [NamespaceOf(imported)];
        continue;
      }
      var resolution := Resolve(g, imported, e.name.value);
      if !resolution.Found? {
        assert !ImportResolves(g, m, mod.imports[i]);
        return false, imp;
      }
      imp := imp + [if resolution.binding.name.Namespace? then NamespaceOf(resolution.binding.target)
                    else BindingOf(resolution.binding)];
    }
  }

  /** Compiling `m` makes at most one environment, for `m`. */
  lemma CompileNew(st: State, m: Id, st1: State)
    requires m < |st.recs| && |st1.recs| == |st.recs| && st1.recs == st.recs[m := st1.recs[m]]
    requires
      || (st1.envs == st.envs && st1.recs[m].getters == st.recs[m].getters)
      || (st1.envs == st.envs + 1 && st1.recs[m].getters == Some(st.envs))
    ensures NewEnvironments(st, st1)
  {
  }

  /** One call of `link`: the registry it works on and its stack. */
  class LinkWalk {
    const r: Registry
    var stack: seq<Id>
    ghost var components: seq<seq<Id>>

    constructor (r: Registry)
      ensures this.r == r && stack == [] && components == []
    {
      this.r := r;
      stack := [];
      components := [];
    }

    /** Resolve every import of `m` once and for all, or fail. */
    method InitializeEnvironment(m: Id) returns (ok: bool)
      requires r.Valid() && r.g.Cyclic(m)
      modifies r`st, r.records[m]
      ensures r.Valid()
      ensures ok <==> Resolvable(r.g, m)
      ensures !ok ==> r.st == old(r.st)
      ensures ok ==> exists slots :: SlotsResolved(r.g, m, slots) && r.st == old(r.With(m, r.st.recs[m].(imp := slots)))
    {
      var imp;
      ok := CheckReExports(r.g, m);
      if !ok { return; }
      ok, imp := ResolveImports(r.g, m);
      if !ok { return; }
      assert SlotsResolved(r.g, m, imp);
      hide SlotsResolved, Resolvable;
      r.SetImp(m, imp);
    }

    /** Pop the stack down to `m`, marking each record linked. */
    method PopDownTo(m: Id, ghost base: nat) returns (component: seq<Id>)
      requires r.Valid() && base < |stack| && stack[base] == m
      requires forall x | x in stack :: x < |r.records|
      requires forall i, j | 0 <= i < j < |stack| :: stack[i] != stack[j]
      modifies this`stack, r`st, r.records
      ensures r.Valid()
      ensures stack == old(stack)[..base]
      ensures |component| == |old(stack)| - base
      ensures forall x :: x in component <==> x in old(stack)[base..]
      ensures r.st == old(r.st).(recs := r.st.recs) && |r.st.recs| == |old(r.st).recs|
      ensures forall x: Id | x < |r.st.recs| ::
          r.st.recs[x] == if x in old(stack)[base..] then old(r.st).recs[x].(status := Linked) else old(r.st).recs[x]
    {
      ghost var s, recs := stack, r.st.recs;
      component := [];
      var done := false;
      while !done
        invariant r.Valid() && base <= |stack| <= |s| && stack == s[..|stack|]
        invariant done <==> |stack| == base
        invariant |component| == |s| - |stack|
        invariant forall x :: x in component <==> x in s[|stack|..]
        invariant r.st == old(r.st).(recs := r.st.recs) && |r.st.recs| == |recs|
        invariant forall x: Id | x < |recs| ::
            r.st.recs[x] == if x in s[|stack|..] then recs[x].(status := Linked) else recs[x]
        decreases |stack|
      {
        var required := stack[|stack|-1];
        assert s[|stack|-1..] == [required] + s[|stack|..];
        assert required in s;
        stack := stack[..|stack|-1];
        r.SetStatus(required, Linked);
        component := component + [required];
        done := required == m;
      }
    }

    method BuildAll(component: seq<Id>, cyclic: bool)
      requires r.Valid() && forall x | x in component :: x < |r.records|
      modifies r`st, r`envs, r.records
      ensures r.Valid()
      ensures NewEnvironments(old(r.st), r.st)
      ensures |r.st.recs| == |old(r.st).recs| && r.st.asyncOrder == old(r.st).asyncOrder && r.st.log == old(r.st).log
      ensures forall x: Id | x < |r.st.recs| && x !in component :: r.st.recs[x] == old(r.st).recs[x]
      ensures forall x: Id | x < |r.st.recs| && x in component ::
          && r.st.recs[x] == old(r.st).recs[x].(code := if cyclic then Generator else Plain, getters := r.st.recs[x].getters)
          && (if cyclic then r.st.recs[x].getters.Some? else r.st.recs[x].getters == old(r.st).recs[x].getters)
    {
      hide NewEnvironments;
      ghost var st0 := r.st;
      ghost var recs := st0.recs;
      NewNone(st0, st0);
      for i := 0 to |component|
        invariant NewEnvironments(st0, r.st)
        invariant
          && r.Valid()
          && |r.st.recs| == |recs|
          && r.st.asyncOrder == old(r.st).asyncOrder
          && r.st.log == old(r.st).log
        invariant forall x: Id | x < |recs| && x !in component[..i] :: r.st.recs[x] == recs[x]
        invariant forall x: Id | x < |recs| && x in component[..i] ::
            && r.st.recs[x] == recs[x].(code := if cyclic then Generator else Plain, getters := r.st.recs[x].getters)
            && (if cyclic then r.st.recs[x].getters.Some? else r.st.recs[x].getters == recs[x].getters)
      {
        assert component[..i+1] == component[..i] + [component[i]];
        assert component[i] in component;
        ghost var st1 := r.st;
        r.Compile(component[i], cyclic);
        CompileNew(st1, component[i], r.st);
        NewTrans(st0, st1, r.st);
      }
      assert component[..|component|] == component;
    }

    /** Pop the component of `m` and instantiate its records, early iff it is an import cycle. */
    method PopAndBuild(m: Id, ghost base: nat) returns (ghost component: seq<Id>, ghost cyclic: bool)
      requires r.Valid() && base < |stack| && stack[base] == m && r.g.Cyclic(m)
      requires forall x | x in stack :: x < |r.records|
      requires forall i, j | 0 <= i < j < |stack| :: stack[i] != stack[j]
      modifies this`stack, this`components, r`st, r`envs, r.records
      ensures r.Valid()
      ensures NewEnvironments(old(r.st), r.st)
      ensures r.st.asyncOrder == old(r.st.asyncOrder) && r.st.log == old(r.st.log)
      ensures stack == old(stack)[..base]
      ensures cyclic == (|old(stack)[base..]| > 1 || m in r.g.Requested(m))
      ensures Built(old(r.st.recs), r.st.recs, old(stack)[base..], cyclic)
      ensures forall x :: x in component <==> x in old(stack)[base..]
      ensures components == old(components) + [component]
    {
      hide NewEnvironments;
      ghost var st0 := r.st;
      var c := PopDownTo(m, base);
      var early := |c| > 1 || m in r.g.mods[m].requested;
      assert forall x | x in old(stack)[base..] :: x in old(stack);
      ghost var st1 := r.st;
      NewNone(st0, st1);
      BuildAll(c, early);
      NewTrans(st0, st1, r.st);
      component, cyclic := c, early;
      components := components + [c];
    }

    /** `m` is the root of a component: take the component off the stack and build it. */
    method FinishComponent(m: Id, ghost r0: seq<Rec>, ghost s0: seq<Id>, ghost gray: set<Id>, ghost index: int)
      requires r.Valid() && m < |r.records| && r.g.Cyclic(m)
      requires OnStack(r.g, r0, s0) && Prepared(r.g, r.st.recs, stack, gray)
      requires CallLooping(r.g, r0, s0, r.st.recs, stack, gray, m, |r.g.Requested(m)|, index)
      requires r.st.recs[m].dfsAncestorIndex == r.st.recs[m].dfsIndex
      modifies this`stack, this`components, r`st, r`envs, r.records
      ensures r.Valid()
      ensures NewEnvironments(old(r.st), r.st)
      ensures r.st.asyncOrder == old(r.st.asyncOrder) && r.st.log == old(r.st.log)
      ensures CallDone(r.g, r0, s0, r.st.recs, stack, gray, m, index)
      ensures old(components) <= components
      ensures forall cs | NewComponents(r.g, r0, old(r.st.recs), cs) ::
          NewComponents(r.g, r0, r.st.recs, cs + components[|old(components)|..])
    {
      ghost var g, s1, r2 := r.g, stack, r.st.recs;
      SegmentFacts(g, r0, s0, r2, s1, gray, m, index);
      hide Changed, Prepared, Looping, Returned, Extends, SlotsResolved, NewComponents, CallLooping, IsComponent,
           OnStack, Built, NewEnvironments;
      ghost var component, cyclic := PopAndBuild(m, |s0|);
      PopCall(g, r0, s0, r2, s1, gray, m, index, r.st.recs, cyclic);
      forall cs | NewComponents(g, r0, r2, cs) ensures NewComponents(g, r0, r.st.recs, cs + [component]) {
        PopNewComponents(g, r0, r2, r.st.recs, s1[|s0|..], m, cyclic, cs, component);
      }
      assert components[|old(components)|..] == [component];
    }

    /** The part of InnerModuleLinking after the loop over the requests. */
    method FinishCall(m: Id, ghost r0: seq<Rec>, ghost s0: seq<Id>, ghost gray: set<Id>, ghost index: int)
      returns (ok: bool)
      requires r.Valid() && m < |r.records| && r.g.Cyclic(m)
      requires OnStack(r.g, r0, s0)
      requires CallLooping(r.g, r0, s0, r.st.recs, stack, gray, m, |r.g.Requested(m)|, index)
      modifies this`stack, this`components, r`st, r`envs, r.records
      ensures r.Valid()
      ensures NewEnvironments(old(r.st), r.st)
      ensures r.st.asyncOrder == old(r.st.asyncOrder) && r.st.log == old(r.st.log)
      ensures ok ==> CallDone(r.g, r0, s0, r.st.recs, stack, gray, m, index)
      ensures !ok ==> CallFailed(r.g, r0, s0, r.st.recs, stack, m)
      ensures old(components) <= components
      ensures forall cs | NewComponents(r.g, r0, old(r.st.recs), cs) ::
          NewComponents(r.g, r0, r.st.recs, cs + components[|old(components)|..])
    {
      hide Changed, Prepared, Searching, Looping, Returned, Extends, SlotsResolved, Reach, NewComponents, OnStack,
           NewEnvironments;
      ghost var g, st0, r1, s1 := r.g, r.st, r.st.recs, stack;
      ok := InitializeEnvironment(m);
      NewNone(st0, r.st);
      ghost var st1 := r.st;
      assert components[|old(components)|..] == [];
      assert forall cs: seq<seq<Id>> :: cs + [] == cs;
      if !ok {
        FailHere(g, r0, s0, r1, s1, gray, m, index);
        return;
      }
      ghost var slots :| SlotsResolved(g, m, slots) && r.st == old(r.With(m, r.st.recs[m].(imp := slots)));
      EnvironmentReady(g, r0, s0, r1, s1, gray, m, index, slots);
      forall cs | NewComponents(g, r0, r1, cs) ensures NewComponents(g, r0, r.st.recs, cs) {
        SetComponents(g, r0, r1, m, r.st.recs[m], cs);
      }
      if r.records[m].dfsAncestorIndex == r.records[m].dfsIndex {
        FinishComponent(m, r0, s0, gray, index);
        NewTrans(st0, st1, r.st);
      } else {
        KeepCall(g, r0, s0, r.st.recs, s1, gray, m, index);
      }
    }

    method InnerModuleLinking(m: Id, index: int, ghost gray: set<Id>) returns (index': int, ok: bool)
      requires r.Valid() && m < |r.records|
      requires MayEnter(r.g, r.st.recs, stack, gray, m, index)
      modifies this`stack, this`components, r`st, r`envs, r.records
      decreases Unlinkeds(r.st.recs), 2
      ensures r.Valid()
      ensures NewEnvironments(old(r.st), r.st)
      ensures r.st.asyncOrder == old(r.st.asyncOrder) && r.st.log == old(r.st.log)
      ensures ok ==> CallDone(r.g, old(r.st.recs), old(stack), r.st.recs, stack, gray, m, index')
      ensures !ok ==> CallFailed(r.g, old(r.st.recs), old(stack), r.st.recs, stack, m)
      ensures old(components) <= components
      ensures NewComponents(r.g, old(r.st.recs), r.st.recs, components[|old(components)|..])
    {
      hide Changed, Prepared, Searching, Looping, Returned, Extends, NewComponents, SlotsResolved, LoadsSucceeded,
           Reach, OnStack, Registry.Valid, Indices, CallDone, CallFailed, NewEnvironments;
      var status := r.StatusOf(m);
      if r.g.Cyclic(m) && status.Unlinked? {
        index', ok := LinkFresh(m, index, gray);
      } else {
        index', ok := index, true;
        AlreadyIn(r.g, r.st.recs, stack, gray, m, index);
        NewNone(r.st, r.st);
        assert components[|components|..] == [];
      }
    }

    /** A call for a record that is not linked: it is entered, its requests are looked at,
        and it is built. */
    method LinkFresh(m: Id, index: int, ghost gray: set<Id>) returns (index': int, ok: bool)
      requires r.Valid() && m < |r.records| && r.g.Cyclic(m) && r.st.recs[m].status.Unlinked?
      requires MayEnter(r.g, r.st.recs, stack, gray, m, index)
      modifies this`stack, this`components, r`st, r`envs, r.records
      decreases Unlinkeds(r.st.recs), 1
      ensures r.Valid()
      ensures NewEnvironments(old(r.st), r.st)
      ensures r.st.asyncOrder == old(r.st.asyncOrder) && r.st.log == old(r.st.log)
      ensures ok ==> CallDone(r.g, old(r.st.recs), old(stack), r.st.recs, stack, gray, m, index')
      ensures !ok ==> CallFailed(r.g, old(r.st.recs), old(stack), r.st.recs, stack, m)
      ensures old(components) <= components
      ensures NewComponents(r.g, old(r.st.recs), r.st.recs, components[|old(components)|..])
    {
      hide Changed, Prepared, Searching, Looping, Returned, Extends, NewComponents, SlotsResolved, LoadsSucceeded,
           Reach, OnStack, Registry.Valid, Indices, CallDone, CallFailed, NewEnvironments;
      ghost var g, st0, r0, s0, c0 := r.g, r.st, r.st.recs, stack, components;
      EnterCall(g, r0, s0, gray, m, index);
      r.EnterLinking(m, index);
      ghost var st1 := r.st;
      NewNone(st0, st1);
      stack := stack + [m];
      NoComponentsYet(g, r0, r.st.recs, m);
      assert components[|c0|..] == [];
      hide CallLooping;
      index', ok := LinkRequests(m, index + 1, r0, s0, gray, []);
      ghost var st2 := r.st;
      NewTrans(st0, st1, st2);
      assert [] + components[|c0|..] == components[|c0|..];
      if ok {
        ghost var c1 := components;
        ok := FinishCall(m, r0, s0, gray, index');
        NewTrans(st0, st2, r.st);
        SuffixSplit(c0, c1, components);
      }
    }

    /** The loop over the requests of `m`. */
    method LinkRequests(m: Id, index: int, ghost r0: seq<Rec>, ghost s0: seq<Id>, ghost gray: set<Id>,
                        ghost cs: seq<seq<Id>>)
      returns (index': int, ok: bool)
      requires r.Valid() && r.g.Cyclic(m) && m < |r.records|
      requires LoadsSucceeded(r.g, r0) && OnStack(r.g, r0, s0)
      requires CallLooping(r.g, r0, s0, r.st.recs, stack, gray, m, 0, index)
      requires NewComponents(r.g, r0, r.st.recs, cs)
      modifies this`stack, this`components, r`st, r`envs, r.records
      decreases Unlinkeds(r0), 0
      ensures r.Valid()
      ensures NewEnvironments(old(r.st), r.st)
      ensures r.st.asyncOrder == old(r.st.asyncOrder) && r.st.log == old(r.st.log)
      ensures ok ==> CallLooping(r.g, r0, s0, r.st.recs, stack, gray, m, |r.g.Requested(m)|, index')
      ensures !ok ==> CallFailed(r.g, r0, s0, r.st.recs, stack, m)
      ensures old(components) <= components
      ensures NewComponents(r.g, r0, r.st.recs, cs + components[|old(components)|..])
    {
      hide Changed, Prepared, Searching, Looping, Returned, Extends, NewComponents, SlotsResolved, LoadsSucceeded,
           Reach, OnStack, Registry.Valid, Indices, CallLooping, CallFailed, Unlinkeds, NewEnvironments;
      ghost var g, st0, c0 := r.g, r.st, components;
      NewNone(st0, st0);
      index', ok := index, true;
      var requested := r.g.mods[m].requested;
      assert cs + components[|c0|..] == cs;
      for i := 0 to |requested|
        invariant r.Valid()
        invariant r.st.asyncOrder == old(r.st.asyncOrder) && r.st.log == old(r.st.log)
        invariant NewEnvironments(st0, r.st)
        invariant CallLooping(g, r0, s0, r.st.recs, stack, gray, m, i, index')
        invariant c0 <= components
        invariant NewComponents(g, r0, r.st.recs, cs + components[|c0|..])
      {
        ghost var c1 := components;
        LoopShrinks(g, r0, s0, r.st.recs, stack, gray, m, i, index');
        ghost var st1 := r.st;
        index', ok := LinkRequest(m, i, index', r0, s0, gray, cs + c1[|c0|..]);
        NewTrans(st0, st1, r.st);
        SuffixSplit(c0, c1, components);
        assert cs + c1[|c0|..] + components[|c1|..] == cs + components[|c0|..];
        if !ok { return; }
      }
    }

    /** One turn of the loop over the requests of `m`. */
    method LinkRequest(m: Id, i: nat, index: int, ghost r0: seq<Rec>, ghost s0: seq<Id>, ghost gray: set<Id>,
                       ghost cs: seq<seq<Id>>)
      returns (index': int, ok: bool)
      requires r.Valid() && r.g.Cyclic(m) && i < |r.g.mods[m].requested| && m < |r.records|
      requires LoadsSucceeded(r.g, r0)
      requires CallLooping(r.g, r0, s0, r.st.recs, stack, gray, m, i, index)
      requires NewComponents(r.g, r0, r.st.recs, cs)
      modifies this`stack, this`components, r`st, r`envs, r.records
      decreases Unlinkeds(r.st.recs), 3
      ensures r.Valid()
      ensures NewEnvironments(old(r.st), r.st)
      ensures r.st.asyncOrder == old(r.st.asyncOrder) && r.st.log == old(r.st.log)
      ensures ok ==> CallLooping(r.g, r0, s0, r.st.recs, stack, gray, m, i + 1, index')
      ensures !ok ==> CallFailed(r.g, r0, s0, r.st.recs, stack, m)
      ensures old(components) <= components
      ensures NewComponents(r.g, r0, r.st.recs, cs + components[|old(components)|..])
    {
      hide Changed, Prepared, Searching, Looping, Returned, Extends, NewComponents, SlotsResolved, LoadsSucceeded,
           Reach, OnStack, Registry.Valid, NewEnvironments;
      ghost var g, st0, r1, s1 := r.g, r.st, r.st.recs, stack;
      var required := r.g.mods[m].requested[i];
      BeforeChild(g, r0, s0, r1, s1, gray, m, i, index);
      index', ok := InnerModuleLinking(required, index, gray + {m});
      ghost var st2, r2 := r.st, r.st.recs;
      ChildComponents(g, r0, s0, r1, s1, r2, stack, gray, m, i, index, index', ok, cs, components[|old(components)|..]);
      if !ok {
        ChildFailed(g, r0, s0, r1, s1, r2, stack, m, required);
        return;
      }
      LookAtRequest(m, i, r0, s0, r1, s1, gray, index, index', cs + components[|old(components)|..]);
      NewTrans(st0, st2, r.st);
    }

    /** The low-link of `m` follows a request that is still on the stack. */
    method LookAtRequest(m: Id, i: nat, ghost r0: seq<Rec>, ghost s0: seq<Id>, ghost r1: seq<Rec>, ghost s1: seq<Id>,
                         ghost gray: set<Id>, ghost index: int, ghost index': int, ghost cs: seq<seq<Id>>)
      requires r.Valid() && r.g.Cyclic(m) && i < |r.g.mods[m].requested| && m < |r.records|
      requires r.g.mods[m].requested[i] < |r.records|
      requires CallLooping(r.g, r0, s0, r1, s1, gray, m, i, index)
      requires CallDone(r.g, r1, s1, r.st.recs, stack, gray + {m}, r.g.mods[m].requested[i], index')
      requires NewComponents(r.g, r0, r.st.recs, cs)
      modifies r`st, r.records[m]
      ensures r.Valid()
      ensures NewEnvironments(old(r.st), r.st)
      ensures r.st.asyncOrder == old(r.st.asyncOrder) && r.st.log == old(r.st.log)
      ensures CallLooping(r.g, r0, s0, r.st.recs, stack, gray, m, i + 1, index')
      ensures NewComponents(r.g, r0, r.st.recs, cs)
    {
      hide Changed, Prepared, Searching, Looping, Returned, Extends, NewComponents, SlotsResolved, Reach, OnStack,
           Registry.Valid, CallLooping, CallDone, Indices, NewEnvironments;
      ghost var g, st0, r2 := r.g, r.st, r.st.recs;
      var required := r.g.mods[m].requested[i];
      StatusOfChild(g, r1, s1, r2, stack, gray + {m}, required, index');
      var status := r.StatusOf(required);
      if r.g.Cyclic(required) && status.Linking? {
        ChildCallOnStack(g, r0, s0, r1, s1, r2, stack, gray, m, i, index, index');
        var own := r.AncestorIndexOf(m);
        var theirs := r.AncestorIndexOf(required);
        r.SetAncestorIndex(m, Min(own, theirs));
        SetComponents(g, r0, r2, m, r.st.recs[m], cs);
      } else {
        ChildCallDone(g, r0, s0, r1, s1, r2, stack, gray, m, i, index, index');
      }
      NewNone(st0, r.st);
    }
  }

  // ── link ─────────────────────────────────────────────────────────────────

  /** A record that has been linked, whatever evaluation has done to it since. */
  ghost predicate StaysInstantiated(g: Graph, m: Id, r: Rec) {
    && SlotsResolved(g, m, r.imp)
    && r.code == (if OnCycle(Imports(g), m) then Generator else Plain)
    && (OnCycle(Imports(g), m) ==> r.getters.Some?)
  }

  /** What holds between calls of `link`: nothing is half linked, and whatever is linked
      is instantiated and has all its requests linked. */
  ghost predicate LinkQuiet(g: Graph, recs: seq<Rec>) {
    && LoadsSucceeded(g, recs)
    && (forall x: Id | x < |recs| :: !recs[x].status.Linking?)
    && (forall x: Id | x < |recs| && recs[x].status.Unlinked? :: recs[x].getters.None?)
    && Closed(Imports(g), Gone(g, recs))
    && (forall x: Id | x < |recs| && g.Cyclic(x) && Past(recs[x].status) :: StaysInstantiated(g, x, recs[x]))
  }

  /** Everything `m` reaches is linked. */
  ghost predicate GraphLinked(g: Graph, recs: seq<Rec>, m: Id) {
    forall x: Id | Reach(Imports(g), m, x) && g.Cyclic(x) && x < |recs| :: Past(recs[x].status)
  }

  lemma EmptySearch(g: Graph, recs: seq<Rec>, m: Id)
    requires LinkQuiet(g, recs) && m < |recs| && (g.Cyclic(m) ==> !recs[m].status.New?)
    ensures MayEnter(g, recs, [], {}, m, 0)
  {
    hide SlotsResolved, Reach;
  }

  lemma InstantiatedKept(g: Graph, r0: seq<Rec>, r1: seq<Rec>, m: Id)
    requires LinkQuiet(g, r0) && Changed(g, r0, r1, m)
    ensures forall x: Id | x < |r1| && g.Cyclic(x) && Past(r1[x].status) :: StaysInstantiated(g, x, r1[x])
  {
    hide Reach, SlotsResolved, Closed;
    forall x: Id | x < |r1| && g.Cyclic(x) && Past(r1[x].status) ensures StaysInstantiated(g, x, r1[x]) {
      assert RecordStep(g, r0[x], r1[x], m, x);
    }
  }

  lemma LinkSucceeded(g: Graph, r0: seq<Rec>, r1: seq<Rec>, m: Id, index: int)
    requires LinkQuiet(g, r0) && m < |r0| && CallDone(g, r0, [], r1, [], {}, m, index)
    ensures LinkQuiet(g, r1) && GraphLinked(g, r1, m)
    ensures !SomeUnresolvable(g, r0, m)
  {
    LoadsKept(g, r0, r1, m);
    InstantiatedKept(g, r0, r1, m);
    hide Reach, SlotsResolved, LoadsSucceeded;
    var succ := Imports(g);
    assert m in Gone(g, r1);
    forall x: Id | Reach(succ, m, x) && g.Cyclic(x) && x < |r1| ensures Past(r1[x].status) {
      ClosedReach(succ, Gone(g, r1), m, x);
    }
    forall x: Id | x < |r0| && r0[x].status.Unlinked? && Reach(succ, m, x) && g.Cyclic(x) ensures Resolvable(g, x) {
      assert Past(r1[x].status);
      assert RecordStep(g, r0[x], r1[x], m, x);
      assert SlotsResolved(g, x, r1[x].imp);
      ResolvedIsResolvable(g, x, r1[x].imp);
    }
  }

  lemma ResolvedIsResolvable(g: Graph, m: Id, imp: seq<ImportSlot>)
    requires SlotsResolved(g, m, imp)
    ensures Resolvable(g, m)
  {
  }

  /** The state after the `catch` of `link`: the stacked records are unlinked again. */
  ghost predicate Unstacked(r1: seq<Rec>, r2: seq<Rec>, s: seq<Id>) {
    |r1| == |r2| && forall x: Id | x < |r1| :: r2[x] == if x in s then r1[x].(status := Unlinked) else r1[x]
  }

  lemma LinkFailed(g: Graph, r0: seq<Rec>, r1: seq<Rec>, s: seq<Id>, r2: seq<Rec>, m: Id)
    requires LinkQuiet(g, r0) && CallFailed(g, r0, [], r1, s, m)
    requires Unstacked(r1, r2, s)
    ensures LinkQuiet(g, r2) && Changed(g, r0, r2, m)
  {
    hide Reach, SlotsResolved, LoadsSucceeded, Closed;
    assert Gone(g, r1) == Gone(g, r2);
    forall x: Id | x < |r0| ensures RecordStep(g, r0[x], r2[x], m, x) {
      assert RecordStep(g, r0[x], r1[x], m, x);
    }
    LoadsKept(g, r0, r2, m);
    InstantiatedKept(g, r0, r2, m);
  }

  lemma UnstackedComponents(g: Graph, r0: seq<Rec>, r1: seq<Rec>, s: seq<Id>, r2: seq<Rec>, cs: seq<seq<Id>>)
    requires NewComponents(g, r0, r1, cs) && OnStack(g, r1, s) && Unstacked(r1, r2, s)
    ensures NewComponents(g, r0, r2, cs)
  {
    hide NonEmptyComponent;
    forall x: Id ensures NewlyLinked(r0, r1, x) <==> NewlyLinked(r0, r2, x) {}
  }

  lemma UnstackedNew(st: State, st1: State, s: seq<Id>)
    requires Unstacked(st.recs, st1.recs, s) && st1.envs == st.envs
    ensures NewEnvironments(st, st1)
  {
  }

  method Unstack(r: Registry, stack: seq<Id>)
    requires r.Valid() && forall x | x in stack :: x < |r.records|
    modifies r`st, r.records
    ensures r.Valid()
    ensures r.st == old(r.st).(recs := r.st.recs) && Unstacked(old(r.st.recs), r.st.recs, stack)
  {
    ghost var recs := r.st.recs;
    for i := 0 to |stack|
      invariant r.Valid() && r.st == old(r.st).(recs := r.st.recs)
      invariant Unstacked(recs, r.st.recs, stack[..i])
    {
      assert stack[..i+1] == stack[..i] + [stack[i]];
      assert stack[i] in stack;
      r.SetStatus(stack[i], Unlinked);
    }
    assert stack[..|stack|] == stack;
  }

  /** `link(m)`: all of the graph of `m` is linked, or an unresolvable import is reported.
      Either way nothing is left half linked. */
  method Link(r: Registry, m: Id) returns (ok: bool, ghost components: seq<seq<Id>>)
    requires r.Valid() && LinkQuiet(r.g, r.st.recs)
    requires m < |r.records| && (r.g.Cyclic(m) ==> !r.st.recs[m].status.New?)
    modifies r`st, r`envs, r.records
    ensures r.Valid() && LinkQuiet(r.g, r.st.recs)
    ensures ok <==> !SomeUnresolvable(r.g, old(r.st.recs), m)
    ensures ok ==> GraphLinked(r.g, r.st.recs, m)
    ensures Changed(r.g, old(r.st.recs), r.st.recs, m)
    ensures r.st.asyncOrder == old(r.st.asyncOrder) && r.st.log == old(r.st.log)
    ensures NewComponents(r.g, old(r.st.recs), r.st.recs, components)
    ensures NewEnvironments(old(r.st), r.st)
  {
    hide Changed, Searching, Returned, NewComponents, SlotsResolved, LoadsSucceeded, Reach, OnStack, Prepared,
         LinkQuiet, GraphLinked, MayEnter, Unstacked, NewEnvironments;
    ghost var g, st0, r0 := r.g, r.st, r.st.recs;
    EmptySearch(g, r0, m);
    var walk := new LinkWalk(r);
    var index;
    index, ok := walk.InnerModuleLinking(m, 0, {});
    components := walk.components;
    assert walk.components[0..] == walk.components;
    if ok {
      StackIsEmpty(g, r0, r.st.recs, walk.stack, m, index);
      LinkSucceeded(g, r0, r.st.recs, m, index);
    } else {
      ghost var st1, r1 := r.st, r.st.recs;
      StackInRange(g, r1, walk.stack);
      Unstack(r, walk.stack);
      UnstackedNew(st1, r.st, walk.stack);
      NewTrans(st0, st1, r.st);
      LinkFailed(g, r0, r1, walk.stack, r.st.recs, m);
      UnstackedComponents(g, r0, r1, walk.stack, r.st.recs, components);
    }
  }

  lemma StackInRange(g: Graph, recs: seq<Rec>, s: seq<Id>)
    requires OnStack(g, recs, s)
    ensures forall x | x in s :: x < |recs|
  {
  }

  /** Nothing is left on the stack after the outermost call. */
  lemma StackIsEmpty(g: Graph, r0: seq<Rec>, r1: seq<Rec>, s: seq<Id>, m: Id, index: int)
    requires CallDone(g, r0, [], r1, s, {}, m, index)
    ensures s == []
    ensures Changed(g, r0, r1, m)
  {
    hide Reach, Numbered, Chained, LowLinked, Scc.Finished, Bounded, SlotsResolved, Changed;
    assert s != [] ==> !Leans(Imports(g), s, Indices(r1), {}, s[0]);
  }
}
