/** The event-driven phase: a body settles, and wakes or fails the modules that wait for it. */
module Wake {
  import opened ModuleGraph
  import opened Reachability
  import opened Records
  import opened Evaluation
  import opened AsyncState

  // ── States that differ only in what the structure does not mention ───────

  ghost predicate SameShape(a: Rec, b: Rec) {
    b == a.(pendingAsyncDependencies := b.pendingAsyncDependencies)
  }

  ghost predicate SameButPending(recs: Recs, recs1: Recs) {
    |recs| == |recs1| && forall x: Id | x < |recs| :: SameShape(recs[x], recs1[x])
  }

  lemma ShapeFacts(recs: Recs, recs1: Recs)
    requires SameButPending(recs, recs1)
    ensures forall x: Id :: Waiting(recs, x) == Waiting(recs1, x) && Errored(recs, x) == Errored(recs1, x)
    ensures forall x: Id :: Fine(recs, x) == Fine(recs1, x) && Rooted(recs, x) == Rooted(recs1, x)
    ensures forall x: Id :: Root(recs, x) == Root(recs1, x) && Parents(recs, x) == Parents(recs1, x)
    ensures forall x: Id :: Order(recs, x) == Order(recs1, x) && Async(recs, x) == Async(recs1, x)
    ensures forall x: Id :: SyntheticDone(recs, x) == SyntheticDone(recs1, x)
    ensures forall x: Id | x < |recs| :: recs[x].body == recs1[x].body
  {
    forall x: Id | x < |recs| ensures SameShape(recs[x], recs1[x]) {}
  }

  /** The fields that tie records to each other. */
  ghost predicate SameLinksAt(a: Rec, b: Rec) {
    && a.status == b.status && a.hasError == b.hasError && a.cycleRoot == b.cycleRoot
    && a.asyncEvaluation == b.asyncEvaluation && a.asyncEvaluationOrder == b.asyncEvaluationOrder
    && a.asyncParentModules == b.asyncParentModules
  }

  ghost predicate SameLinks(recs: Recs, recs1: Recs) {
    |recs| == |recs1| && forall x: Id {:trigger SameLinksAt(recs[x], recs1[x])} | x < |recs| :: SameLinksAt(recs[x], recs1[x])
  }

  lemma LinkFacts(recs: Recs, recs1: Recs)
    requires SameLinks(recs, recs1)
    ensures forall x: Id :: Waiting(recs, x) == Waiting(recs1, x) && Errored(recs, x) == Errored(recs1, x)
    ensures forall x: Id :: Fine(recs, x) == Fine(recs1, x) && Rooted(recs, x) == Rooted(recs1, x)
    ensures forall x: Id :: Root(recs, x) == Root(recs1, x) && Parents(recs, x) == Parents(recs1, x)
    ensures forall x: Id :: Order(recs, x) == Order(recs1, x) && Async(recs, x) == Async(recs1, x)
  {
    forall x: Id | x < |recs| ensures SameLinksAt(recs[x], recs1[x]) {}
  }

  lemma StructureKept(g: Graph, recs: Recs, recs1: Recs, s: seq<Id>)
    requires Structure(g, recs, s) && SameLinks(recs, recs1) && RecordsOk(g, recs1, s)
    requires forall x: Id | SyntheticDone(recs, x) && !g.Cyclic(x) :: SyntheticDone(recs1, x)
    ensures Structure(g, recs1, s)
  {
    LinkFacts(recs, recs1);
    hide Reach, SameLinks, RecordsOk;
    forall x: Id | Rooted(recs1, x) ensures RootOk(g, recs1, x) { assert RootOk(g, recs, x); }
    forall x: Id, y: Id | Rooted(recs1, x) && y in g.Requested(x) ensures RequestMet(g, recs1, x, y) {
      assert RequestMet(g, recs, x, y);
    }
    forall x: Id, p: Id | p in Parents(recs1, x) && (Rooted(recs1, x) || x in s) ensures EdgeOk(g, recs1, s, x, p) {
      assert EdgeOk(g, recs, s, x, p);
    }
    forall x: Id | Rooted(recs1, x) && Root(recs1, x) != x && (Waiting(recs1, x) || Errored(recs1, x))
      ensures HasCycleParent(recs1, x)
    {
      assert HasCycleParent(recs, x);
      var p :| p in Parents(recs, x) && Rooted(recs, p) && Root(recs, p) == Root(recs, x);
      assert p in Parents(recs1, x) && Rooted(recs1, p) && Root(recs1, p) == Root(recs1, x);
    }
  }

  lemma ShapeStructure(g: Graph, recs: Recs, recs1: Recs, s: seq<Id>)
    requires SameButPending(recs, recs1) && Structure(g, recs, s)
    ensures Structure(g, recs1, s)
  {
    hide Reach;
    ShapeFacts(recs, recs1);
    forall x: Id | x < |recs| ensures RecordOk(g, x, recs1[x], x in s) && SameLinksAt(recs[x], recs1[x]) {
      assert RecordOk(g, x, recs[x], x in s) && SameShape(recs[x], recs1[x]);
    }
    StructureKept(g, recs, recs1, s);
  }

  // ── GatherAvailableAncestors ─────────────────────────────────────────────

  /** A module whose pending count is kept up: it waits, and its cycle has no error. */
  predicate Eligible(recs: Recs, p: Id) {
    Waiting(recs, p) && !Errored(recs, Root(recs, p))
  }

  /** The unsettled modules, less those in `list` that complete as soon as their turn comes. */
  ghost function Live(g: Graph, recs: Recs, list: seq<Id>): set<Id> {
    set x | x in IdsBelow(|recs|) && Waiting(recs, x) && !(x in list && !g.HasTLA(x))
  }

  /** The count of `p` is what live modules, the list `ps` and the list `rest` mention. */
  ghost predicate Accounted(g: Graph, recs: Recs, list: seq<Id>, ps: seq<Id>, rest: seq<Id>, p: Id) {
    p < |recs| && recs[p].pendingAsyncDependencies == Occ(recs, Live(g, recs, list), p) + Count(ps, p) + Count(rest, p)
  }

  ghost predicate ListedOk(recs: Recs, p: Id) {
    Eligible(recs, p) && recs[p].pendingAsyncDependencies == 0 && recs[p].body.Unstarted?
  }

  /** The state of a walk over ancestors: `ps` are the parents still to be looked at by
      the innermost call, `rest` those of the calls around it. */
  ghost predicate Gathering(g: Graph, recs: Recs, list: seq<Id>, ps: seq<Id>, rest: seq<Id>) {
    && Structure(g, recs, [])
    && (forall p: Id {:trigger Accounted(g, recs, list, ps, rest, p)} | Eligible(recs, p) :: Accounted(g, recs, list, ps, rest, p))
    && (forall p: Id {:trigger StartOk(recs, p)} | Eligible(recs, p) && p !in list :: StartOk(recs, p))
    && (forall p | p in list :: ListedOk(recs, p))
    && (forall i, j | 0 <= i < j < |list| :: list[i] != list[j])
    && (forall p | p in ps + rest :: Rooted(recs, p) && (Waiting(recs, p) || Errored(recs, p)))
  }

  lemma EligibleParent(g: Graph, recs: Recs, list: seq<Id>, ps: seq<Id>, rest: seq<Id>, bound: nat)
    requires Gathering(g, recs, list, ps, rest) && OrdersBelow(recs, bound) && ps != []
    ensures Rooted(recs, ps[0]) && RootOk(g, recs, ps[0])
    ensures !Errored(recs, Root(recs, ps[0])) ==>
        Eligible(recs, ps[0]) && Accounted(g, recs, list, ps, rest, ps[0]) && ps[0] !in list
  {
    hide Occ, Reach;
    var p := ps[0];
    assert (ps + rest)[0] == p;
    if !Errored(recs, Root(recs, p)) {
      if Errored(recs, p) { UnfinishedReachesRoot(g, recs, [], p, bound); }
      assert Accounted(g, recs, list, ps, rest, p);
      hide Structure;
      assert p in list ==> ListedOk(recs, p);
    }
  }

  /** Passing over a parent whose cycle has failed. */
  lemma GatherSkip(g: Graph, recs: Recs, list: seq<Id>, ps: seq<Id>, rest: seq<Id>)
    requires Gathering(g, recs, list, ps, rest) && ps != []
    requires !Eligible(recs, ps[0])
    ensures Gathering(g, recs, list, ps[1..], rest)
  {
    hide Occ, Structure, ListedOk, StartOk;
    forall p: Id | Eligible(recs, p) ensures Accounted(g, recs, list, ps[1..], rest, p) {
      assert Accounted(g, recs, list, ps, rest, p);
    }
    TailIn(ps, rest);
  }

  lemma TailIn(ps: seq<Id>, rest: seq<Id>)
    requires ps != []
    ensures forall p | p in ps[1..] + rest :: p in ps + rest
  {
  }

  function Decremented(recs: Recs, p: Id): Recs
    requires p < |recs|
  {
    recs[p := recs[p].(pendingAsyncDependencies := recs[p].pendingAsyncDependencies - 1)]
  }

  lemma DecrementShape(g: Graph, recs: Recs, p: Id, list: seq<Id>)
    requires p < |recs|
    ensures SameButPending(recs, Decremented(recs, p))
    ensures Live(g, Decremented(recs, p), list) == Live(g, recs, list)
    ensures forall q: Id, live :: Occ(Decremented(recs, p), live, q) == Occ(recs, live, q)
  {
    var recs1 := Decremented(recs, p);
    ShapeFacts(recs, recs1);
    forall q: Id, live ensures Occ(recs1, live, q) == Occ(recs, live, q) { OccSame(recs, recs1, live, live, q); }
  }

  /** One decrement, when the count stays positive or the module has top-level await. */
  lemma GatherStep(g: Graph, recs: Recs, list: seq<Id>, ps: seq<Id>, rest: seq<Id>, list1: seq<Id>)
    requires Gathering(g, recs, list, ps, rest) && ps != []
    requires Eligible(recs, ps[0]) && ps[0] !in list
    requires recs[ps[0]].pendingAsyncDependencies == 1 ==> g.HasTLA(ps[0]) && list1 == list + [ps[0]]
    requires recs[ps[0]].pendingAsyncDependencies != 1 ==> list1 == list
    ensures Gathering(g, Decremented(recs, ps[0]), list1, ps[1..], rest)
  {
    hide Occ, Reach, Structure;
    var q := ps[0];
    var recs1 := Decremented(recs, q);
    DecrementShape(g, recs, q, list);
    ShapeStructure(g, recs, recs1, []);
    ShapeFacts(recs, recs1);
    hide SameButPending;
    assert Live(g, recs1, list1) == Live(g, recs, list);
    hide Live;
    assert Accounted(g, recs, list, ps, rest, q) && StartOk(recs, q);
    forall p: Id | Eligible(recs1, p) ensures Accounted(g, recs1, list1, ps[1..], rest, p) {
      assert Accounted(g, recs, list, ps, rest, p);
    }
    forall p: Id | Eligible(recs1, p) && p !in list1 ensures StartOk(recs1, p) {
      assert StartOk(recs, p);
    }
    forall p | p in list1 ensures ListedOk(recs1, p) {
      if p != q { assert ListedOk(recs, p); }
    }
    TailIn(ps, rest);
  }

  lemma DescendCounts(g: Graph, recs: Recs, list: seq<Id>, ps: seq<Id>, rest: seq<Id>)
    requires Gathering(g, recs, list, ps, rest) && ps != []
    requires Eligible(recs, ps[0]) && ps[0] !in list && !g.HasTLA(ps[0])
    requires recs[ps[0]].pendingAsyncDependencies == 1
    ensures forall p: Id | Eligible(Decremented(recs, ps[0]), p) ::
      Accounted(g, Decremented(recs, ps[0]), list + [ps[0]], Parents(recs, ps[0]), ps[1..] + rest, p)
  {
    hide Occ, Reach, Structure, StartOk, ListedOk;
    var q := ps[0];
    var recs1, list1 := Decremented(recs, q), list + [q];
    DecrementShape(g, recs, q, list);
    ShapeFacts(recs, recs1);
    hide SameButPending;
    assert q in Live(g, recs, list) && Live(g, recs1, list1) == Live(g, recs, list) - {q};
    hide Live;
    forall p: Id | Eligible(recs1, p) ensures Accounted(g, recs1, list1, Parents(recs, q), ps[1..] + rest, p) {
      assert Accounted(g, recs, list, ps, rest, p);
      OccRemove(recs, Live(g, recs, list), q, p);
      CountConcat(ps[1..], rest, p);
    }
  }

  /** The last decrement of a module without top-level await: its own parents come next. */
  lemma GatherDescend(g: Graph, recs: Recs, list: seq<Id>, ps: seq<Id>, rest: seq<Id>)
    requires Gathering(g, recs, list, ps, rest) && ps != []
    requires Eligible(recs, ps[0]) && ps[0] !in list && !g.HasTLA(ps[0])
    requires recs[ps[0]].pendingAsyncDependencies == 1
    ensures Gathering(g, Decremented(recs, ps[0]), list + [ps[0]], Parents(recs, ps[0]), ps[1..] + rest)
  {
    DescendCounts(g, recs, list, ps, rest);
    hide Occ, Reach, Accounted;
    var q := ps[0];
    ParentsUnfinished(g, recs, q);
    hide Structure;
    var recs1, list1 := Decremented(recs, q), list + [q];
    DecrementShape(g, recs, q, list);
    ShapeStructure(g, recs, recs1, []);
    ShapeFacts(recs, recs1);
    hide SameButPending;
    assert StartOk(recs, q);
    forall p: Id | Eligible(recs1, p) && p !in list1 ensures StartOk(recs1, p) {
      assert StartOk(recs, p);
    }
    forall p | p in list1 ensures ListedOk(recs1, p) {
      if p != q { assert ListedOk(recs, p); }
    }
    forall p | p in Parents(recs, q) + (ps[1..] + rest)
      ensures Rooted(recs1, p) && (Waiting(recs1, p) || Errored(recs1, p))
    {
      if p !in Parents(recs, q) { TailIn(ps, rest); assert p in ps + rest; }
    }
  }

  lemma ParentsUnfinished(g: Graph, recs: Recs, q: Id)
    requires Structure(g, recs, []) && Waiting(recs, q)
    ensures forall p | p in Parents(recs, q) :: Rooted(recs, p) && (Waiting(recs, p) || Errored(recs, p))
  {
    hide Reach;
    assert RecordOk(g, q, recs[q], false);
    forall p | p in Parents(recs, q) ensures Rooted(recs, p) && (Waiting(recs, p) || Errored(recs, p)) {
      assert EdgeOk(g, recs, [], q, p);
    }
  }

  lemma GatherReturn(g: Graph, recs: Recs, list: seq<Id>, ps: seq<Id>, rest: seq<Id>)
    requires Gathering(g, recs, list, [], ps + rest)
    ensures Gathering(g, recs, list, ps, rest)
  {
    hide Occ, Structure, ListedOk, StartOk;
    assert [] + (ps + rest) == ps + rest;
    forall p: Id | Eligible(recs, p) ensures Accounted(g, recs, list, ps, rest, p) {
      assert Accounted(g, recs, list, [], ps + rest, p);
      CountConcat(ps, rest, p);
    }
  }

  /** The walk never meets a missing cycle root, changes counts only, and leaves every
      count equal to what is still unsettled. */
  lemma {:induction false} GatherOk(w: World, st: State, ps: seq<Id>, list: seq<Id>, rest: seq<Id>, bound: nat)
    requires Gathering(w.g, st.recs, list, ps, rest) && OrdersBelow(st.recs, bound)
    ensures var r := Gather(w, st, ps, list);
      && !r.crashed && Gathering(w.g, r.st.recs, r.list, [], rest)
      && SameButPending(st.recs, r.st.recs) && r.st == st.(recs := r.st.recs)
    decreases Ungathered(st, list), |ps|
  {
    hide Gathering, Reach;
    if ps != [] {
      var p := ps[0];
      EligibleParent(w.g, st.recs, list, ps, rest, bound);
      if Errored(st.recs, Root(st.recs, p)) || p in list {
        GatherSkip(w.g, st.recs, list, ps, rest);
        GatherOk(w, st, ps[1..], list, rest, bound);
      } else {
        var st1 := st.(recs := Decremented(st.recs, p));
        DecrementShape(w.g, st.recs, p, list);
        ShapeFacts(st.recs, st1.recs);
        ShapeOrders(st.recs, st1.recs, bound);
        if st.recs[p].pendingAsyncDependencies - 1 != 0 {
          GatherStep(w.g, st.recs, list, ps, rest, list);
          assert Ungathered(st1, list) == Ungathered(st, list);
          GatherOk(w, st1, ps[1..], list, rest, bound);
          ShapeTrans(st.recs, st1.recs, Gather(w, st1, ps[1..], list).st.recs);
        } else {
          var list1 := list + [p];
          assert p in Ungathered(st, list) && p !in Ungathered(st1, list1);
          assert Ungathered(st1, list1) <= Ungathered(st, list);
          if w.g.HasTLA(p) {
            GatherStep(w.g, st.recs, list, ps, rest, list1);
            GatherOk(w, st1, ps[1..], list1, rest, bound);
            ShapeTrans(st.recs, st1.recs, Gather(w, st1, ps[1..], list1).st.recs);
          } else {
            GatherDescend(w.g, st.recs, list, ps, rest);
            GatherOk(w, st1, Parents(st.recs, p), list1, ps[1..] + rest, bound);
            var inner := Gather(w, st1, Parents(st.recs, p), list1);
            GatherReturn(w.g, inner.st.recs, inner.list, ps[1..], rest);
            assert Ungathered(inner.st, inner.list) <= Ungathered(st1, list1);
            ShapeOrders(st1.recs, inner.st.recs, bound);
            GatherOk(w, inner.st, ps[1..], inner.list, rest, bound);
            ShapeTrans(st.recs, st1.recs, inner.st.recs);
            ShapeTrans(st.recs, inner.st.recs, Gather(w, inner.st, ps[1..], inner.list).st.recs);
          }
        }
      }
    }
  }

  lemma ShapeTrans(a: Recs, b: Recs, c: Recs)
    requires SameButPending(a, b) && SameButPending(b, c)
    ensures SameButPending(a, c)
  {
    forall x: Id | x < |a| ensures SameShape(a[x], c[x]) { assert SameShape(a[x], b[x]) && SameShape(b[x], c[x]); }
  }

  lemma ShapeOrders(a: Recs, b: Recs, bound: nat)
    requires SameButPending(a, b) && OrdersBelow(a, bound)
    ensures OrdersBelow(b, bound)
  {
    forall x: Id | x < |a| ensures b[x].asyncEvaluationOrder <= bound { assert SameShape(a[x], b[x]); }
  }

  // ── AsyncModuleExecutionRejected ─────────────────────────────────────────

  /** `a` after it has been marked failed with `e`. */
  function FailedRec(a: Rec, e: Error): Rec {
    a.(status := Evaluated, hasError := true, error := e,
       topLevelCapability := if a.topLevelCapability.Pending? then Capability.Rejected(e) else a.topLevelCapability)
  }

  /** The records a failure has reached. */
  predicate Hit(recs: Recs, recs1: Recs, x: Id) {
    x < |recs| == |recs1| && !recs[x].status.Evaluated? && recs1[x].status.Evaluated?
  }

  ghost predicate RecFails(recs: Recs, recs1: Recs, e: Error, x: Id)
    requires x < |recs| == |recs1|
  {
    recs1[x] == if Hit(recs, recs1, x) then FailedRec(recs[x], e) else recs[x]
  }

  ghost predicate Failing(recs: Recs, recs1: Recs, e: Error) {
    |recs| == |recs1| && forall x: Id {:trigger RecFails(recs, recs1, e, x)} | x < |recs| :: RecFails(recs, recs1, e, x)
  }

  ghost predicate ParentsSettled(recs1: Recs, ps: seq<Id>) {
    forall p | p in ps && p < |recs1| :: recs1[p].status.Evaluated?
  }

  /** Whatever was hit has no unsettled parent left. */
  ghost predicate FailClosed(recs: Recs, recs1: Recs) {
    forall x: Id {:trigger Hit(recs, recs1, x)} | Hit(recs, recs1, x) :: ParentsSettled(recs1, Parents(recs, x))
  }

  ghost function ParentEdges(recs: Recs): Id -> seq<Id> {
    (x: Id) => Parents(recs, x)
  }

  /** A capability event for a record that had one and was hit, and no other event. */
  ghost predicate RejectionLogged(st: State, st1: State, x: Id) {
    EventCount(st1.log, CapabilityRejected(x)) == EventCount(st.log, CapabilityRejected(x))
      + (if Hit(st.recs, st1.recs, x) && !st.recs[x].topLevelCapability.NoCapability? then 1 else 0)
  }

  ghost predicate OnlyRejections(log: seq<Event>, log1: seq<Event>) {
    log <= log1 && forall i | |log| <= i < |log1| :: log1[i].CapabilityRejected?
  }

  ghost predicate FailStep(st: State, st1: State, e: Error) {
    && Failing(st.recs, st1.recs, e) && FailClosed(st.recs, st1.recs)
    && st1.asyncOrder == st.asyncOrder && st1.envs == st.envs
    && OnlyRejections(st.log, st1.log)
    && (forall x: Id {:trigger RejectionLogged(st, st1, x)} :: RejectionLogged(st, st1, x))
  }

  lemma FailingParents(recs: Recs, recs1: Recs, e: Error)
    requires Failing(recs, recs1, e)
    ensures forall x: Id :: Parents(recs1, x) == Parents(recs, x)
    ensures forall x: Id :: ParentEdges(recs1)(x) == ParentEdges(recs)(x)
  {
    forall x: Id ensures Parents(recs1, x) == Parents(recs, x) {
      if x < |recs| { assert RecFails(recs, recs1, e, x); }
    }
  }

  lemma FailTrans(st: State, st1: State, st2: State, e: Error)
    requires FailStep(st, st1, e) && FailStep(st1, st2, e)
    ensures FailStep(st, st2, e)
    ensures forall x: Id :: Hit(st.recs, st2.recs, x) <==> Hit(st.recs, st1.recs, x) || Hit(st1.recs, st2.recs, x)
  {
    forall x: Id
      ensures x < |st.recs| ==> RecFails(st.recs, st2.recs, e, x)
      ensures Hit(st.recs, st2.recs, x) <==> Hit(st.recs, st1.recs, x) || Hit(st1.recs, st2.recs, x)
      ensures RejectionLogged(st, st2, x)
    {
      if x < |st.recs| {
        assert RecFails(st.recs, st1.recs, e, x) && RecFails(st1.recs, st2.recs, e, x);
      }
      assert RejectionLogged(st, st1, x) && RejectionLogged(st1, st2, x);
    }
    FailingParents(st.recs, st1.recs, e);
    forall x: Id | Hit(st.recs, st2.recs, x) ensures ParentsSettled(st2.recs, Parents(st.recs, x)) {
      if Hit(st.recs, st1.recs, x) {
        assert ParentsSettled(st1.recs, Parents(st.recs, x));
        forall p | p in Parents(st.recs, x) && p < |st2.recs| ensures st2.recs[p].status.Evaluated? {
          assert RecFails(st1.recs, st2.recs, e, p);
        }
      }
    }
  }

  lemma FailNothing(st: State, e: Error)
    ensures FailStep(st, st, e)
  {
    forall x: Id | x < |st.recs| ensures RecFails(st.recs, st.recs, e, x) {}
    forall x: Id ensures RejectionLogged(st, st, x) {}
  }

  /** Marking `m`, failing its parents, rejecting its capability: one failure step. */
  lemma FailOne(st: State, st2: State, m: Id, e: Error)
    requires m < |st.recs| && !st.recs[m].status.Evaluated?
    requires FailStep(MarkFailed(st, m, e), st2, e)
    requires ParentsSettled(st2.recs, Parents(st.recs, m))
    ensures FailStep(st, RejectCapability(st2, m, e), e)
    ensures forall x: Id ::
        Hit(st.recs, RejectCapability(st2, m, e).recs, x) <==> x == m || Hit(MarkFailed(st, m, e).recs, st2.recs, x)
  {
    var st1 := MarkFailed(st, m, e);
    var st3 := RejectCapability(st2, m, e);
    assert RecFails(st1.recs, st2.recs, e, m);
    assert st2.recs[m] == st1.recs[m];
    forall x: Id
      ensures Hit(st.recs, st3.recs, x) <==> x == m || Hit(st1.recs, st2.recs, x)
      ensures x < |st.recs| ==> RecFails(st.recs, st3.recs, e, x)
      ensures RejectionLogged(st, st3, x)
    {
      if x < |st.recs| { assert RecFails(st1.recs, st2.recs, e, x); }
      assert RejectionLogged(st1, st2, x);
      CountNote(st2.log, CapabilityRejected(m), CapabilityRejected(x));
    }
    assert Hit(st.recs, st3.recs, m);
    forall x: Id | Hit(st.recs, st3.recs, x) ensures ParentsSettled(st3.recs, Parents(st.recs, x)) {
      if x != m { assert Hit(st1.recs, st2.recs, x); }
    }
  }

  /** What failing `m` does in any state: every record hit is an ancestor of `m`. */
  /** Marking one record settles it, and moves no edge. */
  lemma MarkingShrinks(st: State, m: Id, e: Error)
    requires m < |st.recs| && !st.recs[m].status.Evaluated?
    ensures Unsettled(MarkFailed(st, m, e)) < Unsettled(st)
    ensures forall z: Id :: ParentEdges(MarkFailed(st, m, e).recs)(z) == ParentEdges(st.recs)(z)
    ensures |MarkFailed(st, m, e).recs| == |st.recs|
  {
    var st1 := MarkFailed(st, m, e);
    assert m in Unsettled(st) && m !in Unsettled(st1);
    assert SettledKept(st, st1);
    SettledUnsettled(st, st1);
  }

  lemma ReachThrough(edges: Id -> seq<Id>, edges1: Id -> seq<Id>, m: Id, p: Id, x: Id)
    requires forall z: Id :: edges1(z) == edges(z)
    requires p in edges(m) && Reach(edges1, p, x)
    ensures Reach(edges, m, x)
  {
    hide Reach;
    SameEdgesReach(edges1, edges, p, x);
    ReachStep(edges, m, p, x);
  }

  lemma FailModuleUnfolds(w: World, st: State, m: Id, e: Error)
    requires m < |st.recs| && !st.recs[m].status.Evaluated?
    ensures FailModule(w, st, m, e) == RejectCapability(FailParents(w, MarkFailed(st, m, e), Parents(st.recs, m), e), m, e)
  {
    hide FailParents, RejectCapability;
  }

  lemma {:induction false} FailModuleOk(w: World, st: State, m: Id, e: Error)
    ensures var st1 := FailModule(w, st, m, e);
      && FailStep(st, st1, e)
      && (m < |st.recs| ==> st1.recs[m].status.Evaluated?)
      && (forall x: Id | Hit(st.recs, st1.recs, x) :: Reach(ParentEdges(st.recs), m, x))
    decreases Unsettled(st), 0
  {
    hide Reach, FailStep;
    if m >= |st.recs| || Get(st, m).status.Evaluated? {
      FailNothing(st, e);
    } else {
      var st1, ps := MarkFailed(st, m, e), Parents(st.recs, m);
      assert ps == ParentEdges(st.recs)(m);
      MarkingShrinks(st, m, e);
      FailModuleUnfolds(w, st, m, e);
      FailParentsOk(w, st1, ps, e);
      var st2 := FailParents(w, st1, ps, e);
      FailOne(st, st2, m, e);
      ReachRefl(ParentEdges(st.recs), m);
      var st3 := RejectCapability(st2, m, e);
      assert Hit(st.recs, st3.recs, m);
      assert m < |st3.recs| && st3.recs[m].status.Evaluated?;
      hide FailModule, FailParents, MarkFailed, RejectCapability, Hit, Unsettled, Parents, ParentEdges;
      forall x: Id | Hit(st.recs, st3.recs, x) ensures Reach(ParentEdges(st.recs), m, x) {
        if x != m {
          var p :| p in ps && Reach(ParentEdges(st1.recs), p, x);
          ReachThrough(ParentEdges(st.recs), ParentEdges(st1.recs), m, p, x);
        }
      }
    }
  }

  lemma SameEdgesReach(a: Id -> seq<Id>, b: Id -> seq<Id>, x: Id, y: Id)
    requires forall z: Id :: a(z) == b(z)
    requires Reach(a, x, y)
    ensures Reach(b, x, y)
  {
    var p :| PathFrom(a, x, y, p);
    assert PathFrom(b, x, y, p);
  }

  lemma {:induction false} FailParentsOk(w: World, st: State, ps: seq<Id>, e: Error)
    ensures var st1 := FailParents(w, st, ps, e);
      && FailStep(st, st1, e)
      && ParentsSettled(st1.recs, ps)
      && (forall x: Id | Hit(st.recs, st1.recs, x) :: exists p :: p in ps && Reach(ParentEdges(st.recs), p, x))
    decreases Unsettled(st), |ps| + 1
  {
    hide Reach, FailStep;
    if ps == [] {
      FailNothing(st, e);
    } else {
      FailModuleOk(w, st, ps[0], e);
      var st1 := FailModule(w, st, ps[0], e);
      SettledUnsettled(st, st1);
      FailParentsOk(w, st1, ps[1..], e);
      var st2 := FailParents(w, st1, ps[1..], e);
      FailTrans(st, st1, st2, e);
      assert Failing(st.recs, st1.recs, e) && Failing(st1.recs, st2.recs, e) by { FailParts(st, st1, e); FailParts(st1, st2, e); }
      FailingParents(st.recs, st1.recs, e);
      forall x: Id | Hit(st.recs, st2.recs, x) ensures exists p :: p in ps && Reach(ParentEdges(st.recs), p, x) {
        if Hit(st.recs, st1.recs, x) {
          assert ps[0] in ps && Reach(ParentEdges(st.recs), ps[0], x);
        } else {
          var p :| p in ps[1..] && Reach(ParentEdges(st1.recs), p, x);
          SameEdgesReach(ParentEdges(st1.recs), ParentEdges(st.recs), p, x);
          assert p in ps;
        }
      }
      forall p | p in ps && p < |st2.recs| ensures st2.recs[p].status.Evaluated? {
        if p == ps[0] { assert RecFails(st1.recs, st2.recs, e, p); } else { assert p in ps[1..]; }
      }
    }
  }

  lemma FailParts(st: State, st1: State, e: Error)
    requires FailStep(st, st1, e)
    ensures Failing(st.recs, st1.recs, e) && FailClosed(st.recs, st1.recs)
  {
  }

  // ── The queue of ancestors to run ────────────────────────────────────────

  ghost predicate QueuedOk(g: Graph, recs: Recs, queue: seq<Id>, p: Id) {
    && Rooted(recs, p) && g.Cyclic(p) && (Waiting(recs, p) || Errored(recs, p))
    && (Waiting(recs, p) ==> recs[p].body.Unstarted?)
    && (Waiting(recs, p) ==> forall x: Id | Waiting(recs, x) && p in Parents(recs, x) :: x in queue && !g.HasTLA(x))
  }

  ghost predicate InOrder(recs: Recs, queue: seq<Id>) {
    && (forall i, j | 0 <= i < j < |queue| :: Order(recs, queue[i]) <= Order(recs, queue[j]))
    && (forall i, j | 0 <= i < j < |queue| :: queue[i] != queue[j])
  }

  ghost predicate QueueCounts(g: Graph, recs: Recs, queue: seq<Id>) {
    && (forall p: Id {:trigger PendingOk(recs, Live(g, recs, queue), p)} | Eligible(recs, p) :: PendingOk(recs, Live(g, recs, queue), p))
    && (forall p: Id {:trigger StartOk(recs, p)} | Eligible(recs, p) && p !in queue :: StartOk(recs, p))
  }

  /** Between two runs of the loop over `execList`: `queue` is what is left of it. */
  ghost predicate Waking(g: Graph, recs: Recs, queue: seq<Id>) {
    && Structure(g, recs, [])
    && (forall p | p in queue :: QueuedOk(g, recs, queue, p))
    && InOrder(recs, queue)
    && QueueCounts(g, recs, queue)
    && StartedFree(recs)
  }

  /** What holds at every quiescent point. */
  ghost predicate Quiescent(g: Graph, recs: Recs) {
    Structure(g, recs, []) && Counted(recs) && StartedFree(recs)
  }

  lemma EmptyQueueQuiescent(g: Graph, recs: Recs)
    requires Waking(g, recs, [])
    ensures Quiescent(g, recs)
  {
    hide Structure, Occ, StartOk;
    assert Live(g, recs, []) == LiveSet(recs);
    hide Live, LiveSet;
    forall p: Id | Waiting(recs, p) && !Errored(recs, Root(recs, p))
      ensures PendingOk(recs, LiveSet(recs), p) && StartOk(recs, p) {
      assert Eligible(recs, p);
      assert PendingOk(recs, Live(g, recs, []), p);
    }
  }

  lemma QuiescentEmptyQueue(g: Graph, recs: Recs)
    requires Quiescent(g, recs)
    ensures Waking(g, recs, [])
  {
    hide Structure, Occ, StartOk;
    assert Live(g, recs, []) == LiveSet(recs);
    hide Live, LiveSet;
    forall p: Id | Eligible(recs, p)
      ensures PendingOk(recs, Live(g, recs, []), p) && StartOk(recs, p) {
      assert PendingOk(recs, LiveSet(recs), p);
    }
  }

  // Sorting.

  lemma {:induction false} InsertOk(st: State, s: seq<Id>, m: Id)
    requires forall i, j | 0 <= i < j < |s| :: Order(st.recs, s[i]) <= Order(st.recs, s[j])
    ensures var r := InsertByOrder(st, s, m);
      && |r| == |s| + 1
      && (forall x :: x in r <==> x == m || x in s)
      && (forall i, j | 0 <= i < j < |r| :: Order(st.recs, r[i]) <= Order(st.recs, r[j]))
  {
    if s != [] {
      if Get(st, s[0]).asyncEvaluationOrder <= Get(st, m).asyncEvaluationOrder {
        InsertOk(st, s[1..], m);
        var t := InsertByOrder(st, s[1..], m);
        assert forall x :: x in s <==> x == s[0] || x in s[1..];
        forall j | 0 <= j < |t| ensures Order(st.recs, s[0]) <= Order(st.recs, t[j]) {
          assert t[j] in t;
          if t[j] != m { var k :| 0 <= k < |s| - 1 && s[1..][k] == t[j]; }
        }
      }
    }
  }

  ghost predicate AllDifferent(s: seq<Id>) {
    forall i, j | 0 <= i < j < |s| :: s[i] != s[j]
  }

  lemma {:induction false} InsertDifferent(st: State, s: seq<Id>, m: Id)
    requires AllDifferent(s) && m !in s
    requires forall i, j | 0 <= i < j < |s| :: Order(st.recs, s[i]) <= Order(st.recs, s[j])
    ensures AllDifferent(InsertByOrder(st, s, m))
  {
    if s != [] && Get(st, s[0]).asyncEvaluationOrder <= Get(st, m).asyncEvaluationOrder {
      InsertDifferent(st, s[1..], m);
      InsertOk(st, s[1..], m);
      var t := InsertByOrder(st, s[1..], m);
      assert s[0] !in t;
      assert InsertByOrder(st, s, m) == [s[0]] + t;
    }
  }

  lemma {:induction false} SortOk(st: State, s: seq<Id>)
    ensures var r := SortByOrder(st, s);
      && |r| == |s|
      && (forall x :: x in r <==> x in s)
      && (forall i, j | 0 <= i < j < |r| :: Order(st.recs, r[i]) <= Order(st.recs, r[j]))
      && (AllDifferent(s) ==> AllDifferent(r))
  {
    if s != [] {
      var t, last := s[..|s|-1], s[|s|-1];
      SortOk(st, t);
      InsertOk(st, SortByOrder(st, t), last);
      LastDiffers(s);
      hide AllDifferent, InsertByOrder, Order;
      if AllDifferent(s) { InsertDifferent(st, SortByOrder(st, t), last); }
    }
  }

  lemma LastDiffers(s: seq<Id>)
    requires s != []
    ensures forall x :: x in s <==> x in s[..|s|-1] || x == s[|s|-1]
    ensures AllDifferent(s) ==> AllDifferent(s[..|s|-1]) && s[|s|-1] !in s[..|s|-1]
  {
    assert s == s[..|s|-1] + [s[|s|-1]];
  }

  /** The walk over the ancestors hands the loop a queue it can run in order. */
  lemma GatheredWakes(g: Graph, st: State, list: seq<Id>)
    requires Gathering(g, st.recs, list, [], []) && StartedFree(st.recs)
    ensures Waking(g, st.recs, SortByOrder(st, list))
  {
    var recs, queue := st.recs, SortByOrder(st, list);
    SortOk(st, list);
    GatheredCounts(g, recs, list, queue);
    hide Occ, Reach, StartOk;
    forall p | p in queue ensures QueuedOk(g, recs, queue, p) {
      assert ListedOk(recs, p) && Accounted(g, recs, list, [], [], p);
      assert RecordOk(g, p, recs[p], false);
      forall x: Id | Waiting(recs, x) && p in Parents(recs, x) ensures x in queue && !g.HasTLA(x) {
        if x in Live(g, recs, list) { OccIn(recs, Live(g, recs, list), p, x); }
      }
    }
  }

  lemma GatheredCounts(g: Graph, recs: Recs, list: seq<Id>, queue: seq<Id>)
    requires Gathering(g, recs, list, [], []) && forall x :: x in queue <==> x in list
    ensures QueueCounts(g, recs, queue)
  {
    hide Occ, Structure, StartOk, ListedOk;
    assert Live(g, recs, queue) == Live(g, recs, list);
    hide Live;
    forall p: Id | Eligible(recs, p) ensures PendingOk(recs, Live(g, recs, queue), p) {
      assert Accounted(g, recs, list, [], [], p);
    }
  }

  // ── Running one ancestor ─────────────────────────────────────────────────

  /** Nothing unsettled has `p` among its parents. */
  ghost predicate FreeOf(recs: Recs, p: Id) {
    forall x: Id | Waiting(recs, x) :: p !in Parents(recs, x)
  }

  /** The first of the queue waits for nothing: its children come before it in order. */
  lemma FirstIsFree(g: Graph, recs: Recs, queue: seq<Id>)
    requires Waking(g, recs, queue) && queue != [] && Waiting(recs, queue[0])
    ensures FreeOf(recs, queue[0])
  {
    hide Reach, QueueCounts;
    var p := queue[0];
    assert QueuedOk(g, recs, queue, p);
    forall x: Id | Waiting(recs, x) ensures p !in Parents(recs, x) {
      assert RecordOk(g, x, recs[x], false);
      assert p in Parents(recs, x) ==> EdgeOk(g, recs, [], x, p);
    }
  }

  /** A request that is met, by a module that nothing unsettled has as a parent, has
      completed with everything below it. */
  lemma MetIsLogged(g: Graph, recs: Recs, s: seq<Id>, log: seq<Event>, p: Id, v: Id, bound: nat)
    requires Structure(g, recs, s) && OrdersBelow(recs, bound)
    requires forall x: Id {:trigger CompletionOk(recs[x], log, x)} | x < |recs| :: CompletionOk(recs[x], log, x)
    requires FreeOf(recs, p) && !Errored(recs, p)
    requires if g.Cyclic(v) then Waits(recs, p, v) else SyntheticDone(recs, v)
    ensures CompletedBelow(g, log, |log|, v)
  {
    hide Reach;
    if g.Cyclic(v) {
      var z := Root(recs, v);
      assert RootOk(g, recs, v);
      if !Fine(recs, z) { PopIsOffStack(g, recs, s, z); }
      FineRootFinished(g, recs, s, v, bound);
    }
    FinishedIsLogged(g, recs, s, log, v, bound);
  }

  lemma BooksCompletion(g: Graph, st: State)
    requires Books(g, st)
    ensures forall x: Id | x < |st.recs| :: CompletionOk(st.recs[x], st.log, x)
    ensures OrdersBelow(st.recs, st.asyncOrder)
  {
    forall x: Id | x < |st.recs| ensures CompletionOk(st.recs[x], st.log, x) {
      assert LoggedAt(g, st, None, x);
    }
  }

  lemma MayStart(g: Graph, st: State, queue: seq<Id>)
    requires Waking(g, st.recs, queue) && Books(g, st) && queue != [] && Waiting(st.recs, queue[0])
    ensures StartInOrder(g, st.log, |st.log|, queue[0])
  {
    var p, recs := queue[0], st.recs;
    FirstIsFree(g, recs, queue);
    assert RecordOk(g, p, recs[p], false);
    assert QueuedOk(g, recs, queue, p);
    hide Reach;
    forall v: Id | v in g.Requested(p) && !MutualReach(Imports(g), p, v)
      ensures CompletedBelow(g, st.log, |st.log|, v)
    {
      assert RequestMet(g, recs, p, v);
      if g.Cyclic(v) {
        assert RootOk(g, recs, p) && RootOk(g, recs, v);
        if Root(recs, v) == Root(recs, p) {
          ReachTrans(Imports(g), p, Root(recs, p), v);
          ReachTrans(Imports(g), v, Root(recs, p), p);
        }
      }
      BooksCompletion(g, st);
      hide *;
      MetIsLogged(g, recs, [], st.log, p, v, st.asyncOrder);
    }
  }

  // The record of `p` alone changes.

  lemma PutLinks(recs: Recs, p: Id, r: Rec)
    requires p < |recs| && SameLinksAt(recs[p], r)
    ensures SameLinks(recs, recs[p := r])
  {
  }

  lemma PutRecordsOk(g: Graph, recs: Recs, p: Id, r: Rec, s: seq<Id>)
    requires RecordsOk(g, recs, s) && p < |recs| && RecordOk(g, p, r, p in s)
    ensures RecordsOk(g, recs[p := r], s)
  {
  }

  lemma LinksOcc(recs: Recs, recs1: Recs, live: set<Id>, p: Id)
    requires SameLinks(recs, recs1)
    ensures Occ(recs1, live, p) == Occ(recs, live, p)
  {
    LinkFacts(recs, recs1);
    OccSame(recs, recs1, live, live, p);
  }

  /** Entering a body that suspends. */
  lemma BeginKeeps(g: Graph, recs: Recs, queue: seq<Id>, r: Rec)
    requires Waking(g, recs, queue) && queue != [] && Waiting(recs, queue[0]) && g.HasTLA(queue[0])
    requires r == recs[queue[0]].(body := Running, getters := r.getters)
    ensures Waking(g, recs[queue[0] := r], queue[1..])
  {
    var p := queue[0];
    var recs1 := recs[p := r];
    FirstIsFree(g, recs, queue);
    assert QueuedOk(g, recs, queue, p);
    assert RecordOk(g, p, recs[p], false);
    hide Reach, Occ;
    PutLinks(recs, p, r);
    PutRecordsOk(g, recs, p, r, []);
    StructureKept(g, recs, recs1, []);
    LinkFacts(recs, recs1);
    BeginCounts(g, recs, queue, r);
    hide Structure, QueueCounts, SameLinks, RecordOk;
    forall q | q in queue[1..] ensures QueuedOk(g, recs1, queue[1..], q) {
      assert QueuedOk(g, recs, queue, q) && q != p;
    }
  }

  lemma BeginCounts(g: Graph, recs: Recs, queue: seq<Id>, r: Rec)
    requires QueueCounts(g, recs, queue) && queue != [] && Waiting(recs, queue[0]) && g.HasTLA(queue[0])
    requires FreeOf(recs, queue[0])
    requires r == recs[queue[0]].(body := Running, getters := r.getters)
    ensures QueueCounts(g, recs[queue[0] := r], queue[1..])
  {
    hide Occ;
    var p := queue[0];
    var recs1 := recs[p := r];
    PutLinks(recs, p, r);
    LinkFacts(recs, recs1);
    assert queue == [p] + queue[1..];
    assert Live(g, recs1, queue[1..]) == Live(g, recs, queue);
    forall q: Id | Eligible(recs1, q) ensures PendingOk(recs1, Live(g, recs1, queue[1..]), q) {
      assert PendingOk(recs, Live(g, recs, queue), q);
      LinksOcc(recs, recs1, Live(g, recs, queue), q);
    }
    OccZero(recs, Live(g, recs, queue), p);
    forall q: Id | Eligible(recs1, q) && q !in queue[1..] ensures StartOk(recs1, q) {
      assert PendingOk(recs, Live(g, recs, queue), q);
      if q != p { assert StartOk(recs, q); }
    }
  }

  /** What completing `p` makes of its record. */
  ghost predicate CompletedRec(a: Rec, b: Rec) {
    b == a.(status := Evaluated, asyncEvaluation := false, body := Over, getters := b.getters, topLevelCapability := b.topLevelCapability)
  }

  lemma CompletedFacts(g: Graph, recs: Recs, p: Id, r: Rec)
    requires RecordsOk(g, recs, []) && Waiting(recs, p) && CompletedRec(recs[p], r)
    ensures var recs1 := recs[p := r];
      && RecordsOk(g, recs1, [])
      && (forall x: Id :: Waiting(recs1, x) <==> Waiting(recs, x) && x != p)
      && (forall x: Id :: Errored(recs1, x) == Errored(recs, x))
      && (forall x: Id :: Fine(recs1, x) <==> Fine(recs, x) || x == p)
      && (forall x: Id :: Rooted(recs1, x) == Rooted(recs, x) && Root(recs1, x) == Root(recs, x))
      && (forall x: Id :: Parents(recs1, x) == Parents(recs, x) && Order(recs1, x) == Order(recs, x))
      && (forall x: Id :: Async(recs1, x) ==> Async(recs, x))
      && Rooted(recs, p)
  {
    assert RecordOk(g, p, recs[p], false);
    PutRecordsOk(g, recs, p, r, []);
  }

  lemma CompleteStructure(g: Graph, recs: Recs, p: Id, r: Rec)
    requires Structure(g, recs, []) && Waiting(recs, p) && FreeOf(recs, p) && CompletedRec(recs[p], r)
    ensures Structure(g, recs[p := r], [])
  {
    var recs1 := recs[p := r];
    CompletedFacts(g, recs, p, r);
    hide Reach, RecordOk, CompletedRec;
    forall x: Id | Rooted(recs1, x) ensures RootOk(g, recs1, x) { assert RootOk(g, recs, x); }
    forall x: Id, y: Id | Rooted(recs1, x) && y in g.Requested(x) ensures RequestMet(g, recs1, x, y) {
      assert RequestMet(g, recs, x, y);
      if !g.Cyclic(y) { assert y != p by { assert RootOk(g, recs, p); } }
    }
    forall x: Id, q: Id | q in Parents(recs1, x) && (Rooted(recs1, x) || x in []) ensures EdgeOk(g, recs1, [], x, q) {
      assert EdgeOk(g, recs, [], x, q);
    }
    forall x: Id | Rooted(recs1, x) && Root(recs1, x) != x && (Waiting(recs1, x) || Errored(recs1, x))
      ensures HasCycleParent(recs1, x)
    {
      assert HasCycleParent(recs, x);
      var q :| q in Parents(recs, x) && Rooted(recs, q) && Root(recs, q) == Root(recs, x);
      assert q in Parents(recs1, x) && Rooted(recs1, q) && Root(recs1, q) == Root(recs1, x);
    }
  }

  /** Completing the first of the queue, which was already left out of the counts. */
  lemma CompleteKeeps(g: Graph, recs: Recs, queue: seq<Id>, r: Rec)
    requires Waking(g, recs, queue) && queue != [] && Waiting(recs, queue[0]) && !g.HasTLA(queue[0])
    requires CompletedRec(recs[queue[0]], r)
    ensures Waking(g, recs[queue[0] := r], queue[1..])
  {
    var p := queue[0];
    var recs1 := recs[p := r];
    FirstIsFree(g, recs, queue);
    CompleteStructure(g, recs, p, r);
    CompletedFacts(g, recs, p, r);
    CompleteCounts(g, recs, queue, r);
    hide Structure, QueueCounts, RecordsOk, Occ, Reach;
    forall q | q in queue[1..] ensures QueuedOk(g, recs1, queue[1..], q) {
      assert QueuedOk(g, recs, queue, q) && q != p;
    }
  }

  lemma CompleteCounts(g: Graph, recs: Recs, queue: seq<Id>, r: Rec)
    requires
      && RecordsOk(g, recs, [])
      && QueueCounts(g, recs, queue)
      && queue != []
      && Waiting(recs, queue[0])
      && !g.HasTLA(queue[0])
    requires CompletedRec(recs[queue[0]], r)
    ensures QueueCounts(g, recs[queue[0] := r], queue[1..])
  {
    var p := queue[0];
    var recs1 := recs[p := r];
    CompletedFacts(g, recs, p, r);
    hide RecordsOk, Occ;
    assert queue == [p] + queue[1..];
    assert Live(g, recs1, queue[1..]) == Live(g, recs, queue);
    forall q: Id | Eligible(recs1, q) ensures PendingOk(recs1, Live(g, recs1, queue[1..]), q) {
      assert PendingOk(recs, Live(g, recs, queue), q);
      OccSame(recs, recs1, Live(g, recs, queue), Live(g, recs1, queue[1..]), q);
    }
    forall q: Id | Eligible(recs1, q) && q !in queue[1..] ensures StartOk(recs1, q) {
      assert StartOk(recs, q);
    }
  }

  /** An ancestor that has been failed in the meantime is passed over. */
  lemma SkipKeeps(g: Graph, recs: Recs, queue: seq<Id>)
    requires Waking(g, recs, queue) && queue != [] && !Waiting(recs, queue[0])
    ensures Waking(g, recs, queue[1..])
  {
    hide Structure, Occ, StartOk;
    var p := queue[0];
    assert queue == [p] + queue[1..];
    assert Live(g, recs, queue[1..]) == Live(g, recs, queue);
    hide Live;
    forall q | q in queue[1..] ensures QueuedOk(g, recs, queue[1..], q) {
      assert QueuedOk(g, recs, queue, q);
    }
    forall q: Id | Eligible(recs, q) ensures PendingOk(recs, Live(g, recs, queue[1..]), q) {
      assert PendingOk(recs, Live(g, recs, queue), q);
    }
  }

  // ── Failing ──────────────────────────────────────────────────────────────

  /** A failure that starts at an unsettled `m`, seen on the records. */
  ghost predicate FailedFrom(recs: Recs, recs1: Recs, m: Id, e: Error) {
    Failing(recs, recs1, e) && FailClosed(recs, recs1) && Hit(recs, recs1, m)
    && forall x: Id | Hit(recs, recs1, x) :: Reach(ParentEdges(recs), m, x)
  }

  /** Only unsettled modules are ancestors of an unsettled module, so only they are hit. */
  lemma HitWaits(g: Graph, recs: Recs, recs1: Recs, m: Id, e: Error)
    requires Structure(g, recs, []) && Waiting(recs, m) && FailedFrom(recs, recs1, m, e)
    ensures forall x: Id | Hit(recs, recs1, x) :: Waiting(recs, x) && g.Cyclic(x) && !recs[x].hasError
  {
    var unfinished := set x | x in IdsBelow(|recs|) && Rooted(recs, x) && (Waiting(recs, x) || Errored(recs, x));
    hide Reach;
    assert RecordOk(g, m, recs[m], false);
    forall x, p | x in unfinished && p in ParentEdges(recs)(x) ensures p in unfinished {
      assert EdgeOk(g, recs, [], x, p);
    }
    forall x: Id | Hit(recs, recs1, x) ensures Waiting(recs, x) && g.Cyclic(x) && !recs[x].hasError {
      ClosedReach(ParentEdges(recs), unfinished, m, x);
      assert RecordOk(g, x, recs[x], false);
    }
  }

  lemma FailedFacts(g: Graph, recs: Recs, recs1: Recs, m: Id, e: Error)
    requires Structure(g, recs, []) && Waiting(recs, m) && FailedFrom(recs, recs1, m, e)
    ensures RecordsOk(g, recs1, [])
    ensures forall x: Id :: Waiting(recs1, x) <==> Waiting(recs, x) && !Hit(recs, recs1, x)
    ensures forall x: Id :: Errored(recs1, x) <==> Errored(recs, x) || Hit(recs, recs1, x)
    ensures forall x: Id :: Fine(recs1, x) == Fine(recs, x) && Rooted(recs1, x) == Rooted(recs, x)
    ensures forall x: Id :: Root(recs1, x) == Root(recs, x) && Parents(recs1, x) == Parents(recs, x)
    ensures forall x: Id :: Order(recs1, x) == Order(recs, x) && Async(recs1, x) == Async(recs, x)
    ensures forall x: Id :: SyntheticDone(recs1, x) ==> SyntheticDone(recs, x)
    ensures forall x: Id | SyntheticDone(recs, x) && !g.Cyclic(x) :: SyntheticDone(recs1, x)
    ensures forall x: Id | Waiting(recs1, x) :: recs1[x] == recs[x]
  {
    HitWaits(g, recs, recs1, m, e);
    hide Reach;
    forall x: Id | x < |recs| ensures RecFails(recs, recs1, e, x) && RecordOk(g, x, recs1[x], false) {
      assert RecordOk(g, x, recs[x], x in []);
    }
  }

  /** Everything a failure hits has all its parents failed. */
  lemma HitParents(g: Graph, recs: Recs, recs1: Recs, m: Id, e: Error, x: Id, p: Id)
    requires Structure(g, recs, []) && Waiting(recs, m) && FailedFrom(recs, recs1, m, e)
    requires Hit(recs, recs1, x) && p in Parents(recs, x)
    ensures Errored(recs1, p) && !Waiting(recs1, p)
  {
    FailedFacts(g, recs, recs1, m, e);
    HitWaits(g, recs, recs1, m, e);
    hide Reach;
    assert RecordOk(g, x, recs[x], false);
    assert EdgeOk(g, recs, [], x, p);
    assert ParentsSettled(recs1, Parents(recs, x));
    assert RecordOk(g, p, recs[p], false);
  }

  lemma FailStructure(g: Graph, recs: Recs, recs1: Recs, m: Id, e: Error)
    requires Structure(g, recs, []) && Waiting(recs, m) && FailedFrom(recs, recs1, m, e)
    ensures Structure(g, recs1, [])
  {
    FailedFacts(g, recs, recs1, m, e);
    hide Reach, RecordOk;
    forall x: Id, p: Id | Rooted(recs1, x) && Errored(recs1, x) && p in Parents(recs1, x) ensures Errored(recs1, p) {
      if Hit(recs, recs1, x) { HitParents(g, recs, recs1, m, e, x, p); }
    }
    hide FailedFrom, Hit;
    forall x: Id | Rooted(recs1, x) ensures RootOk(g, recs1, x) { assert RootOk(g, recs, x); }
    forall x: Id, y: Id | Rooted(recs1, x) && y in g.Requested(x) ensures RequestMet(g, recs1, x, y) {
      assert RequestMet(g, recs, x, y);
    }
    forall x: Id, q: Id | q in Parents(recs1, x) && (Rooted(recs1, x) || x in []) ensures EdgeOk(g, recs1, [], x, q) {
      assert EdgeOk(g, recs, [], x, q);
    }
    forall x: Id | Rooted(recs1, x) && Root(recs1, x) != x && (Waiting(recs1, x) || Errored(recs1, x))
      ensures HasCycleParent(recs1, x)
    {
      assert HasCycleParent(recs, x);
      var q :| q in Parents(recs, x) && Rooted(recs, q) && Root(recs, q) == Root(recs, x);
      assert q in Parents(recs1, x) && Rooted(recs1, q) && Root(recs1, q) == Root(recs1, x);
    }
  }

  lemma FailCounts(g: Graph, recs: Recs, recs1: Recs, m: Id, e: Error, queue: seq<Id>, queue1: seq<Id>)
    requires Structure(g, recs, []) && Waiting(recs, m) && FailedFrom(recs, recs1, m, e)
    requires forall p: Id | Eligible(recs, p) && p != m :: PendingOk(recs, Live(g, recs, queue), p)
    requires forall p: Id | Eligible(recs, p) && p !in queue && p != m :: StartOk(recs, p)
    requires forall x | x in queue :: x == m || x in queue1
    requires forall x | x in queue1 :: x in queue
    requires m in queue || Live(g, recs, queue1) == Live(g, recs, queue)
    ensures QueueCounts(g, recs1, queue1)
  {
    FailedFacts(g, recs, recs1, m, e);
    var l, l1 := Live(g, recs, queue), Live(g, recs1, queue1);
    hide Structure, Occ, RecordsOk;
    assert Hit(recs, recs1, m);
    forall p: Id | Eligible(recs1, p) ensures PendingOk(recs1, l1, p) {
      assert PendingOk(recs, l, p);
      forall x: Id | x < |recs| ensures Share(recs, l, p, x) == Share(recs1, l1, p, x) {
        if Hit(recs, recs1, x) {
          if p in Parents(recs, x) { HitParents(g, recs, recs1, m, e, x, p); }
          CountIn(Parents(recs, x), p);
        }
      }
      OccSame(recs, recs1, l, l1, p);
    }
    forall p: Id | Eligible(recs1, p) && p !in queue1 ensures StartOk(recs1, p) {
      assert StartOk(recs, p);
    }
  }

  lemma FailQueue(g: Graph, recs: Recs, recs1: Recs, m: Id, e: Error, queue: seq<Id>)
    requires Structure(g, recs, []) && Waiting(recs, m) && FailedFrom(recs, recs1, m, e)
    requires StartedFree(recs) || (forall x: Id, p: Id | Waiting(recs, x) && p in Parents(recs, x) && p < |recs| && !recs[p].body.Unstarted? :: !Waiting(recs, p) || p == m)
    requires forall p | p in queue && p != m :: QueuedOk(g, recs, queue, p)
    requires InOrder(recs, queue) && queue != [] && queue[0] == m
    ensures
      && (forall p | p in queue[1..] :: QueuedOk(g, recs1, queue[1..], p))
      && InOrder(recs1, queue[1..])
      && StartedFree(recs1)
  {
    FailedFacts(g, recs, recs1, m, e);
    hide Structure, RecordsOk, FailedFrom;
    forall p | p in queue[1..] ensures QueuedOk(g, recs1, queue[1..], p) {
      assert p in queue && p != m;
      assert QueuedOk(g, recs, queue, p);
      if Waiting(recs1, p) {
        forall x: Id | Waiting(recs1, x) && p in Parents(recs1, x) ensures x in queue[1..] && !g.HasTLA(x) {
          assert x != m;
        }
      }
    }
  }

  // ── The log through each step ────────────────────────────────────────────

  lemma BeginLogged(g: Graph, st: State, p: Id, body: Body, x: Id)
    requires p < |st.recs| && g.Cyclic(p) && st.recs[p].body.Unstarted? && !body.Unstarted? && LoggedAt(g, st, None, x)
    ensures LoggedAt(g, Begin(st, p, body), if body.Over? then Some(p) else None, x)
  {
    CountNote(st.log, Began(p), Began(x));
    CountNote(st.log, Began(p), CapabilityResolved(x));
    CountNote(st.log, Began(p), CapabilityRejected(x));
    hide EventCount;
  }

  lemma BeginBooks(g: Graph, st: State, p: Id, body: Body)
    requires BooksBut(g, st, None) && p < |st.recs| && g.Cyclic(p)
    requires st.recs[p].body.Unstarted? && !body.Unstarted?
    requires StartInOrder(g, st.log, |st.log|, p)
    ensures BooksBut(g, Begin(st, p, body), if body.Over? then Some(p) else None)
  {
    hide StartInOrder, StartsInOrder, LoggedAt;
    var st1, skip := Begin(st, p, body), if body.Over? then Some(p) else None;
    NoteStarts(g, st.log, Began(p));
    forall x: Id ensures LoggedAt(g, st1, skip, x) {
      assert LoggedAt(g, st, None, x);
      BeginLogged(g, st, p, body, x);
    }
  }

  lemma CompleteNotes(st: State, p: Id, e: Event)
    requires p < |st.recs| && !Settled(st.recs[p].topLevelCapability)
    ensures EventCount(Complete(st, p).log, e) == EventCount(st.log, e)
      + (if e == Completed(p) then 1 else if e == CapabilityResolved(p) && st.recs[p].topLevelCapability.Pending? then 1 else 0)
  {
    CountNote(st.log, Completed(p), e);
    CountNote(st.log + [Completed(p)], CapabilityResolved(p), e);
    hide EventCount;
  }

  lemma CompleteLogged(g: Graph, st: State, p: Id, x: Id)
    requires p < |st.recs| && g.Cyclic(p) && LoggedAt(g, st, Some(p), x)
    requires st.recs[p].body.Over? && !st.recs[p].hasError && !Settled(st.recs[p].topLevelCapability)
    ensures LoggedAt(g, Complete(st, p), None, x)
  {
    CompleteNotes(st, p, Began(x));
    CompleteNotes(st, p, CapabilityResolved(x));
    CompleteNotes(st, p, CapabilityRejected(x));
    hide EventCount;
  }

  lemma CompleteBooks(g: Graph, st: State, p: Id)
    requires BooksBut(g, st, Some(p)) && p < |st.recs| && g.Cyclic(p)
    requires st.recs[p].body.Over? && !st.recs[p].hasError && !Settled(st.recs[p].topLevelCapability)
    ensures Books(g, Complete(st, p))
  {
    var st1 := Complete(st, p);
    assert Began(p) in st.log by { assert LoggedAt(g, st, Some(p), p); CountedIsLogged(st.log, Began(p)); }
    hide StartsInOrder, LoggedAt;
    NoteStarts(g, st.log, Completed(p));
    NoteStarts(g, st.log + [Completed(p)], CapabilityResolved(p));
    forall x: Id ensures LoggedAt(g, st1, None, x) {
      assert LoggedAt(g, st, Some(p), x);
      CompleteLogged(g, st, p, x);
    }
  }

  lemma {:induction false} RejectionsCount(log: seq<Event>, log1: seq<Event>, e: Event)
    requires OnlyRejections(log, log1) && !e.CapabilityRejected?
    ensures EventCount(log1, e) == EventCount(log, e)
    decreases |log1|
  {
    if |log1| == |log| {
      assert log1 == log;
    } else {
      RejectionsCount(log, log1[..|log1|-1], e);
    }
  }

  lemma {:induction false} RejectionsStarts(g: Graph, log: seq<Event>, log1: seq<Event>)
    requires OnlyRejections(log, log1) && StartsInOrder(g, log)
    ensures StartsInOrder(g, log1)
    decreases |log1|
  {
    hide StartsInOrder;
    if |log1| == |log| {
      assert log1 == log;
    } else {
      var prefix := log1[..|log1|-1];
      RejectionsStarts(g, log, prefix);
      NoteStarts(g, prefix, log1[|log1|-1]);
      assert log1 == prefix + [log1[|log1|-1]];
    }
  }

  lemma FailBooks(g: Graph, st: State, st1: State, skip: Option<Id>, e: Error)
    requires BooksBut(g, st, skip) && FailStep(st, st1, e)
    requires skip.Some? ==> Hit(st.recs, st1.recs, skip.value) && !Settled(st.recs[skip.value].topLevelCapability)
    requires forall x: Id | Hit(st.recs, st1.recs, x) :: Waiting(st.recs, x) && g.Cyclic(x) && !st.recs[x].hasError
    ensures Books(g, st1)
  {
    RejectionsStarts(g, st.log, st1.log);
    hide StartsInOrder;
    forall x: Id ensures LoggedAt(g, st1, None, x) {
      if x < |st.recs| {
        assert LoggedAt(g, st, skip, x) && RecFails(st.recs, st1.recs, e, x) && RejectionLogged(st, st1, x);
        RejectionsCount(st.log, st1.log, Began(x));
        RejectionsCount(st.log, st1.log, CapabilityResolved(x));
      }
    }
    forall x: Id | x < |st1.recs| ensures st1.recs[x].asyncEvaluationOrder <= st1.asyncOrder {
      assert RecFails(st.recs, st1.recs, e, x);
    }
  }

  // ── asyncModuleExecutionFulfilled and Rejected, whole ────────────────────

  ghost predicate Awake(g: Graph, st: State, queue: seq<Id>) {
    Waking(g, st.recs, queue) && Books(g, st)
  }

  lemma FirstFacts(g: Graph, st: State, queue: seq<Id>)
    requires Awake(g, st, queue) && queue != []
    ensures queue[0] < |st.recs| && g.Cyclic(queue[0])
    ensures Waiting(st.recs, queue[0]) <==> !st.recs[queue[0]].status.Evaluated?
    ensures Waiting(st.recs, queue[0]) ==>
      !st.recs[queue[0]].hasError && st.recs[queue[0]].body.Unstarted? && !Settled(st.recs[queue[0]].topLevelCapability)
  {
    hide Reach, QueueCounts;
    var p := queue[0];
    assert QueuedOk(g, st.recs, queue, p) && RecordOk(g, p, st.recs[p], false) && LoggedAt(g, st, None, p);
  }

  lemma RunSuspends(w: World, st: State, queue: seq<Id>)
    requires Awake(w.g, st, queue) && queue != [] && Waiting(st.recs, queue[0]) && w.g.HasTLA(queue[0])
    ensures Awake(w.g, RunReady(w, st, queue[0]), queue[1..])
  {
    FirstFacts(w.g, st, queue);
    MayStart(w.g, st, queue);
    hide StartInOrder, Waking, BooksBut;
    var p := queue[0];
    BeginBooks(w.g, st, p, Running);
    BeginKeeps(w.g, st.recs, queue, Begin(st, p, Running).recs[p]);
  }

  lemma RunCompletes(w: World, st: State, queue: seq<Id>)
    requires
      && Awake(w.g, st, queue)
      && queue != []
      && Waiting(st.recs, queue[0])
      && !w.g.HasTLA(queue[0])
      && queue[0] !in w.fails
    ensures Awake(w.g, RunReady(w, st, queue[0]), queue[1..])
  {
    FirstFacts(w.g, st, queue);
    MayStart(w.g, st, queue);
    hide StartInOrder, Waking, BooksBut;
    var p := queue[0];
    BeginBooks(w.g, st, p, Over);
    var st1 := Begin(st, p, Over);
    CompleteBooks(w.g, st1, p);
    var st2 := Complete(st1, p);
    assert st2.recs == st.recs[p := st2.recs[p]];
    CompleteKeeps(w.g, st.recs, queue, st2.recs[p]);
  }

  lemma StartedStructure(g: Graph, recs: Recs, p: Id, r: Rec)
    requires Structure(g, recs, []) && Waiting(recs, p) && r == recs[p].(body := Over, getters := r.getters)
    ensures Structure(g, recs[p := r], []) && SameLinks(recs, recs[p := r])
  {
    hide Reach;
    assert RecordOk(g, p, recs[p], false);
    PutLinks(recs, p, r);
    PutRecordsOk(g, recs, p, r, []);
    StructureKept(g, recs, recs[p := r], []);
  }

  lemma FailFrom(w: World, st: State, m: Id, e: Error)
    requires m < |st.recs| && Waiting(st.recs, m)
    ensures FailStep(st, FailModule(w, st, m, e), e)
    ensures FailedFrom(st.recs, FailModule(w, st, m, e).recs, m, e)
  {
    FailModuleOk(w, st, m, e);
    FailParts(st, FailModule(w, st, m, e), e);
  }

  /** Entering a body changes no count, and nothing else's turn. */
  lemma StartedCounts(g: Graph, recs: Recs, r: Rec, queue: seq<Id>)
    requires Waking(g, recs, queue) && queue != [] && Waiting(recs, queue[0]) && SameLinks(recs, recs[queue[0] := r])
    requires r == recs[queue[0]].(body := Over, getters := r.getters)
    ensures var p, recs1 := queue[0], recs[queue[0] := r];
      && (forall q: Id | Eligible(recs1, q) && q != p :: PendingOk(recs1, Live(g, recs1, queue), q))
      && (forall q: Id | Eligible(recs1, q) && q !in queue && q != p :: StartOk(recs1, q))
      && (forall q | q in queue && q != p :: QueuedOk(g, recs1, queue, q))
      && (forall x: Id, q: Id | Waiting(recs1, x) && q in Parents(recs1, x) && q < |recs1| && !recs1[q].body.Unstarted? :: !Waiting(recs1, q) || q == p)
      && InOrder(recs1, queue) && Waiting(recs1, p)
  {
    var p, recs1 := queue[0], recs[queue[0] := r];
    LinkFacts(recs, recs1);
    hide Structure, Reach, Occ, SameLinks;
    assert Live(g, recs1, queue) == Live(g, recs, queue);
    forall q: Id | Eligible(recs1, q) && q != p ensures PendingOk(recs1, Live(g, recs1, queue), q) {
      assert PendingOk(recs, Live(g, recs, queue), q);
      LinksOcc(recs, recs1, Live(g, recs, queue), q);
    }
    forall q: Id | Eligible(recs1, q) && q !in queue && q != p ensures StartOk(recs1, q) { assert StartOk(recs, q); }
    forall q | q in queue && q != p ensures QueuedOk(g, recs1, queue, q) { assert QueuedOk(g, recs, queue, q); }
  }

  lemma StartedFails(g: Graph, recs: Recs, r: Rec, recs2: Recs, queue: seq<Id>, e: Error)
    requires Waking(g, recs, queue) && queue != [] && Waiting(recs, queue[0]) && !g.HasTLA(queue[0])
    requires r == recs[queue[0]].(body := Over, getters := r.getters)
    requires FailedFrom(recs[queue[0] := r], recs2, queue[0], e)
    ensures Waking(g, recs2, queue[1..])
  {
    var p := queue[0];
    var recs1 := recs[p := r];
    StartedStructure(g, recs, p, r);
    FailStructure(g, recs1, recs2, p, e);
    StartedCounts(g, recs, r, queue);
    assert queue == [p] + queue[1..];
    hide Structure, FailedFrom, Reach, Occ, PendingOk, StartOk, QueuedOk, SameLinks, Eligible, InOrder, Waiting, Parents;
    FailCounts(g, recs1, recs2, p, e, queue, queue[1..]);
    FailQueue(g, recs1, recs2, p, e, queue);
  }

  lemma RunFails(w: World, st: State, queue: seq<Id>)
    requires
      && Awake(w.g, st, queue)
      && queue != []
      && Waiting(st.recs, queue[0])
      && !w.g.HasTLA(queue[0])
      && queue[0] in w.fails
    ensures Awake(w.g, RunReady(w, st, queue[0]), queue[1..])
  {
    FirstFacts(w.g, st, queue);
    MayStart(w.g, st, queue);
    var p := queue[0];
    var e := w.fails[p];
    var st1 := Begin(st, p, Over);
    var st2 := FailModule(w, st1, p, e);
    assert st1.recs == st.recs[p := st1.recs[p]];
    StartedStructure(w.g, st.recs, p, st1.recs[p]);
    FailFrom(w, st1, p, e);
    HitWaits(w.g, st1.recs, st2.recs, p, e);
    hide StartInOrder, Waking, BooksBut, FailedFrom, FailStep, Structure;
    BeginBooks(w.g, st, p, Over);
    assert Hit(st1.recs, st2.recs, p) by { HitStart(st1.recs, st2.recs, p, e); }
    FailBooks(w.g, st1, st2, Some(p), e);
    StartedFails(w.g, st.recs, st1.recs[p], st2.recs, queue, e);
  }

  lemma HitStart(recs: Recs, recs1: Recs, m: Id, e: Error)
    requires FailedFrom(recs, recs1, m, e)
    ensures Hit(recs, recs1, m)
  {
  }

  /** One turn of the loop over `execList`. */
  lemma RunReadyOk(w: World, st: State, queue: seq<Id>)
    requires Awake(w.g, st, queue) && queue != []
    ensures Awake(w.g, RunReady(w, st, queue[0]), queue[1..])
  {
    FirstFacts(w.g, st, queue);
    hide Books, Waking;
    if !Waiting(st.recs, queue[0]) {
      SkipKeeps(w.g, st.recs, queue);
    } else if w.g.HasTLA(queue[0]) {
      RunSuspends(w, st, queue);
    } else if queue[0] in w.fails {
      RunFails(w, st, queue);
    } else {
      RunCompletes(w, st, queue);
    }
  }

  lemma {:induction false} RunAllReadyOk(w: World, st: State, queue: seq<Id>)
    requires Awake(w.g, st, queue)
    ensures Awake(w.g, RunAllReady(w, st, queue), [])
    decreases |queue|
  {
    hide Awake;
    if queue != [] {
      RunReadyOk(w, st, queue);
      RunAllReadyOk(w, RunReady(w, st, queue[0]), queue[1..]);
    } else {
      assert queue == [];
    }
  }

  lemma BodyOver(g: Graph, st: State, m: Id)
    requires Quiescent(g, st.recs) && Books(g, st) && Waiting(st.recs, m) && st.recs[m].body.Running?
    ensures var st1 := Put(st, m, Get(st, m).(body := Over));
      Structure(g, st1.recs, []) && BooksBut(g, st1, Some(m)) && SameLinks(st.recs, st1.recs)
    ensures FreeOf(st.recs, m) && g.Cyclic(m) && !st.recs[m].hasError && !Settled(st.recs[m].topLevelCapability)
  {
    var st1 := Put(st, m, Get(st, m).(body := Over));
    StartedStructure(g, st.recs, m, st1.recs[m]);
    hide StartsInOrder, Reach;
    assert RecordOk(g, m, st.recs[m], false);
    assert LoggedAt(g, st, None, m);
    forall x: Id ensures LoggedAt(g, st1, Some(m), x) { assert LoggedAt(g, st, None, x); }
  }

  /** After `m` has completed, its parents are accounted for by its own list. */
  lemma GatherBegins(g: Graph, recs: Recs, m: Id, r: Rec)
    requires Quiescent(g, recs) && Waiting(recs, m) && FreeOf(recs, m) && CompletedRec(recs[m], r)
    ensures Gathering(g, recs[m := r], [], Parents(recs, m), []) && StartedFree(recs[m := r])
  {
    var recs1 := recs[m := r];
    CompleteStructure(g, recs, m, r);
    CompletedFacts(g, recs, m, r);
    ParentsUnfinished(g, recs, m);
    hide Structure, RecordsOk, Occ;
    assert LiveSet(recs) - {m} == Live(g, recs1, []);
    forall p: Id | Eligible(recs1, p) ensures Accounted(g, recs1, [], Parents(recs, m), [], p) {
      assert PendingOk(recs, LiveSet(recs), p);
      OccRemove(recs, LiveSet(recs), m, p);
      OccSame(recs, recs1, Live(g, recs1, []), Live(g, recs1, []), p);
    }
    forall p: Id | Eligible(recs1, p) && p !in [] ensures StartOk(recs1, p) { assert StartOk(recs, p); }
    assert m !in Parents(recs, m);
    forall p | p in Parents(recs, m) + [] ensures Rooted(recs1, p) && (Waiting(recs1, p) || Errored(recs1, p)) {
      assert p in Parents(recs, m);
    }
  }

  lemma GatheredBooks(g: Graph, st: State, st1: State)
    requires Books(g, st) && SameButPending(st.recs, st1.recs) && st1 == st.(recs := st1.recs)
    ensures Books(g, st1)
  {
    hide StartsInOrder;
    ShapeOrders(st.recs, st1.recs, st.asyncOrder);
    forall x: Id ensures LoggedAt(g, st1, None, x) {
      assert LoggedAt(g, st, None, x);
      if x < |st.recs| { assert SameShape(st.recs[x], st1.recs[x]); }
    }
  }

  lemma SameFree(recs: Recs, recs1: Recs)
    requires StartedFree(recs) && SameButPending(recs, recs1)
    ensures StartedFree(recs1)
  {
    ShapeFacts(recs, recs1);
  }

  /** After the ancestors have been gathered and sorted, all is ready for the loop over them. */
  lemma SettleOkWakes(w: World, st: State, m: Id)
    requires
      && Quiescent(w.g, st.recs)
      && Books(w.g, st)
      && m < |st.recs|
      && st.recs[m].body.Running?
      && Waiting(st.recs, m)
    ensures var st2 := Complete(Put(st, m, Get(st, m).(body := Over)), m);
      var gathered := Gather(w, st2, Parents(st.recs, m), []);
      && !gathered.crashed && SameButPending(st2.recs, gathered.st.recs) && gathered.st == st2.(recs := gathered.st.recs)
      && Awake(w.g, gathered.st, SortByOrder(gathered.st, gathered.list))
      && SettleOk(w, st, m) == Outcome(RunAllReady(w, gathered.st, SortByOrder(gathered.st, gathered.list)), false)
      && st2.recs == st.recs[m := st2.recs[m]] && CompletedRec(st.recs[m], st2.recs[m]) && st2.recs[m].getters == st.recs[m].getters
      && st.log <= st2.log
  {
    var st1 := Put(st, m, Get(st, m).(body := Over));
    BodyOver(w.g, st, m);
    hide BooksBut, Structure;
    CompleteBooks(w.g, st1, m);
    var st2 := Complete(st1, m);
    assert st2.recs == st.recs[m := st2.recs[m]];
    GatherBegins(w.g, st.recs, m, st2.recs[m]);
    assert OrdersBelow(st2.recs, st2.asyncOrder) by { BooksCompletion(w.g, st2); }
    GatherOk(w, st2, Parents(st.recs, m), [], [], st2.asyncOrder);
    var gathered := Gather(w, st2, Parents(st.recs, m), []);
    SameFree(st2.recs, gathered.st.recs);
    GatheredBooks(w.g, st2, gathered.st);
    GatheredWakes(w.g, gathered.st, gathered.list);
  }

  /** A body's promise fulfils: the ancestor walk never fails, and the loader is quiescent again. */
  lemma SettleOkQuiescent(w: World, st: State, m: Id)
    requires Quiescent(w.g, st.recs) && Books(w.g, st) && m < |st.recs| && st.recs[m].body.Running?
    ensures !SettleOk(w, st, m).crashed
    ensures Quiescent(w.g, SettleOk(w, st, m).st.recs) && Books(w.g, SettleOk(w, st, m).st)
  {
    assert RecordsOk(w.g, st.recs, []) by { hide Books; }
    RunningIsUnsettled(w.g, st.recs, m);
    if Waiting(st.recs, m) {
      SettleOkWakes(w, st, m);
      hide Quiescent, Books, Gather, Complete, SortByOrder, RunAllReady, SettleOk, RecordsOk;
      var st2 := Complete(Put(st, m, Get(st, m).(body := Over)), m);
      var gathered := Gather(w, st2, Parents(st.recs, m), []);
      RunAllReadyOk(w, gathered.st, SortByOrder(gathered.st, gathered.list));
      EmptyQueueQuiescent(w.g, RunAllReady(w, gathered.st, SortByOrder(gathered.st, gathered.list)).recs);
    } else {
      LateSettle(w.g, st, m);
      hide Quiescent, Books;
    }
  }

  lemma RunningIsUnsettled(g: Graph, recs: Recs, m: Id)
    requires RecordsOk(g, recs, []) && m < |recs| && recs[m].body.Running?
    ensures g.Cyclic(m) && (Waiting(recs, m) || (recs[m].status.Evaluated? && recs[m].hasError))
  {
    assert RecordOk(g, m, recs[m], false);
  }

  /** A body whose module has failed in the meantime settles without further effect. */
  lemma LateSettle(g: Graph, st: State, m: Id)
    requires Quiescent(g, st.recs) && Books(g, st) && m < |st.recs| && st.recs[m].body.Running?
    requires st.recs[m].status.Evaluated? && st.recs[m].hasError
    ensures var st1 := Put(st, m, Get(st, m).(body := Over)); Quiescent(g, st1.recs) && Books(g, st1)
  {
    var st1 := Put(st, m, Get(st, m).(body := Over));
    var recs, recs1 := st.recs, st1.recs;
    assert RecordOk(g, m, recs[m], false);
    hide Reach, StartsInOrder, Occ;
    PutLinks(recs, m, recs1[m]);
    PutRecordsOk(g, recs, m, recs1[m], []);
    StructureKept(g, recs, recs1, []);
    LinkFacts(recs, recs1);
    LateCounts(g, recs, m, recs1[m]);
    forall x: Id ensures LoggedAt(g, st1, None, x) { assert LoggedAt(g, st, None, x); }
  }

  lemma LateCounts(g: Graph, recs: Recs, m: Id, r: Rec)
    requires
      && Counted(recs)
      && StartedFree(recs)
      && m < |recs|
      && recs[m].status.Evaluated?
      && r == recs[m].(body := Over)
    ensures Counted(recs[m := r]) && StartedFree(recs[m := r])
  {
    var recs1 := recs[m := r];
    PutLinks(recs, m, r);
    LinkFacts(recs, recs1);
    hide SameLinks, Occ;
    assert LiveSet(recs1) == LiveSet(recs);
    forall p: Id | Waiting(recs1, p) && !Errored(recs1, Root(recs1, p))
      ensures PendingOk(recs1, LiveSet(recs1), p) && StartOk(recs1, p) {
      assert PendingOk(recs, LiveSet(recs), p) && StartOk(recs, p);
      PutLinks(recs, m, r);
      LinksOcc(recs, recs1, LiveSet(recs), p);
    }
  }

  /** A promise that rejects: the error reaches exactly the ancestors, and nothing else moves. */
  lemma SettleErrorQuiescent(w: World, st: State, m: Id, e: Error)
    requires Quiescent(w.g, st.recs) && Books(w.g, st) && m < |st.recs| && st.recs[m].body.Running?
    ensures Quiescent(w.g, SettleError(w, st, m, e).recs) && Books(w.g, SettleError(w, st, m, e))
  {
    RunningIsUnsettled(w.g, st.recs, m);
    var st1 := Put(st, m, Get(st, m).(body := Over));
    if Waiting(st.recs, m) {
      BodyOver(w.g, st, m);
      FailFrom(w, st1, m, e);
      var st2 := FailModule(w, st1, m, e);
      HitWaits(w.g, st1.recs, st2.recs, m, e);
      HitStart(st1.recs, st2.recs, m, e);
      hide BooksBut, FailStep, FailedFrom;
      FailBooks(w.g, st1, st2, Some(m), e);
      FailStructure(w.g, st1.recs, st2.recs, m, e);
      SettledFailCounts(w.g, st.recs, st1.recs[m], st2.recs, m, e);
    } else {
      LateSettle(w.g, st, m);
    }
  }

  lemma SettledFailCounts(g: Graph, recs: Recs, r: Rec, recs2: Recs, m: Id, e: Error)
    requires Quiescent(g, recs) && Waiting(recs, m) && r == recs[m].(body := Over)
    requires Structure(g, recs[m := r], []) && FailedFrom(recs[m := r], recs2, m, e)
    ensures Counted(recs2) && StartedFree(recs2)
  {
    var recs1 := recs[m := r];
    PutLinks(recs, m, r);
    LinkFacts(recs, recs1);
    QuiescentEmptyQueue(g, recs);
    FailedFacts(g, recs1, recs2, m, e);
    hide Structure, Occ, Reach, Quiescent;
    assert Live(g, recs1, []) == Live(g, recs, []);
    forall q: Id | Eligible(recs1, q) && q != m ensures PendingOk(recs1, Live(g, recs1, []), q) {
      assert PendingOk(recs, Live(g, recs, []), q);
      LinksOcc(recs, recs1, Live(g, recs, []), q);
    }
    forall q: Id | Eligible(recs1, q) && q !in [] && q != m ensures StartOk(recs1, q) {
      assert StartOk(recs, q);
    }
    FailCounts(g, recs1, recs2, m, e, [], []);
    NoQueueCounted(g, recs2);
  }

  lemma NoQueueCounted(g: Graph, recs: Recs)
    requires QueueCounts(g, recs, [])
    ensures Counted(recs)
  {
    hide Occ, StartOk;
    assert Live(g, recs, []) == LiveSet(recs);
    hide Live, LiveSet;
    forall p: Id | Waiting(recs, p) && !Errored(recs, Root(recs, p))
      ensures PendingOk(recs, LiveSet(recs), p) && StartOk(recs, p) {
      assert Eligible(recs, p);
      assert PendingOk(recs, Live(g, recs, []), p);
    }
  }
}
