/** A call of Evaluate as a whole: from one quiescent point to the next. */
module EvaluateCall {
  import opened ModuleGraph
  import opened Reachability
  import opened Records
  import opened Evaluation
  import opened AsyncState
  import opened Scc
  import opened Descend
  import Ascend
  import Linker
  import Wake

  /** What holds whenever no code of the loader is running. */
  ghost predicate Resting(g: Graph, st: State) {
    Wake.Quiescent(g, st.recs) && Books(g, st) && AsyncReachesTLA(g, st.recs)
  }

  // ── The beginning ────────────────────────────────────────────────────────

  function Opened(st: State, t: Id): State {
    Put(st, t, Get(st, t).(topLevelCapability := Pending))
  }

  lemma OpenedRecords(g: Graph, st: State, t: Id)
    requires Resting(g, st) && t < |st.recs|
    ensures var r1 := Opened(st, t).recs;
      Structure(g, r1, []) && CountsOn(r1, []) && StartedFree(r1) && AsyncReachesTLA(g, r1)
  {
    var recs, r1 := st.recs, Opened(st, t).recs;
    hide Books, ReachesTLA, Occ, Reach;
    assert RecordOk(g, t, recs[t], false);
    Wake.PutLinks(recs, t, r1[t]);
    Wake.PutRecordsOk(g, recs, t, r1[t], []);
    Wake.StructureKept(g, recs, r1, []);
    Wake.LinkFacts(recs, r1);
    hide Structure, RecordsOk, RecordOk;
    assert LiveOn(r1, []) == LiveSet(recs);
    forall p: Id | Wake.Eligible(r1, p) || p in [] ensures PendingOk(r1, LiveOn(r1, []), p) {
      assert PendingOk(recs, LiveSet(recs), p);
      Wake.LinksOcc(recs, r1, LiveSet(recs), p);
    }
    forall p: Id | Wake.Eligible(r1, p) ensures StartOk(r1, p) { assert StartOk(recs, p); }
    forall x: Id | Async(r1, x) ensures ReachesTLA(g, x) { assert Async(recs, x); }
  }

  lemma OpenedEntries(g: Graph, st: State, t: Id)
    requires Books(g, st) && t < |st.recs| && st.recs[t].topLevelCapability.NoCapability?
    ensures Entries(g, Opened(st, t), t) && Completions(Opened(st, t))
  {
    var st1 := Opened(st, t);
    hide StartsInOrder;
    forall x: Id ensures EntryOk(g, st1, t, x) { assert LoggedAt(g, st, None, x); }
    forall x: Id | x < |st1.recs| ensures CompletionOk(st1.recs[x], st1.log, x) { assert LoggedAt(g, st, None, x); }
  }

  /** What is done stays within what is done. */
  lemma GoneClosed(g: Graph, recs: Recs)
    requires g.Loaded() && Structure(g, recs, [])
    ensures Closed(Imports(g), Gone(g, recs))
  {
    hide RootsOk, EdgesUp, ErrorsUp, CycleParents, RecordOk;
    forall x: Id, y: Id | x in Gone(g, recs) && y in Imports(g)(x) ensures y in Gone(g, recs) {
      RequestedInRange(g, x, y);
      assert RequestMet(g, recs, x, y);
    }
  }

  lemma MayBegin(g: Graph, st: State, t: Id)
    requires g.Loaded() && Resting(g, st) && t < |st.recs| && st.recs[t].topLevelCapability.NoCapability?
    ensures MayEnter(g, Opened(st, t), [], {}, t, 0, t)
  {
    OpenedRecords(g, st, t);
    OpenedEntries(g, st, t);
    GoneClosed(g, Opened(st, t).recs);
    hide Resting, Structure, CountsOn, StartedFree, AsyncReachesTLA, Entries, Completions, Closed, Gone;
  }

  // ── The end, when nothing was thrown ─────────────────────────────────────

  lemma WalkEmpties(g: Graph, st0: State, st: State, s: seq<Id>, t: Id, index: int)
    requires CallDone(g, st0, [], st, s, {}, t, index, t)
    ensures s == [] && Evaluates(g, st, [], {}, Some(t), t) && t in Gone(g, st.recs)
  {
    hide Evaluates, Grows, ParentsAbove, Numbered, Chained, LowLinked, Scc.Finished, Closed, Gone;
    assert s != [] ==> !Leans(Imports(g), s, Linker.Indices(st.recs), {}, s[0]);
  }

  lemma CountsAtRest(recs: Recs)
    requires CountsOn(recs, [])
    ensures Counted(recs)
  {
    hide Occ;
    assert LiveOn(recs, []) == LiveSet(recs);
    forall p: Id | Waiting(recs, p) && !Errored(recs, Root(recs, p))
      ensures PendingOk(recs, LiveSet(recs), p) && StartOk(recs, p)
    {
      assert Wake.Eligible(recs, p);
      assert PendingOk(recs, LiveOn(recs, []), p) && StartOk(recs, p);
    }
  }

  /** The record of the target when its capability is about to be settled, or left pending. */
  ghost predicate TargetDone(g: Graph, recs: Recs, t: Id) {
    t < |recs| && !recs[t].hasError &&
    if g.Cyclic(t) then Root(recs, t) == t && Rooted(recs, t) else recs[t].body.Over?
  }

  lemma EntriesAreBooks(g: Graph, st: State, t: Id)
    requires Entries(g, st, t) && Completions(st) && t < |st.recs|
    requires CapabilityOk(g, st.recs[t], t)
    ensures Books(g, st)
  {
    hide StartsInOrder;
    forall x: Id ensures LoggedAt(g, st, None, x) {
      assert EntryOk(g, st, t, x);
      assert x < |st.recs| ==> CompletionOk(st.recs[x], st.log, x);
    }
  }

  /** Settling the target's capability makes the books complete. */
  lemma SettleTarget(g: Graph, st: State, t: Id, c: Capability)
    requires Entries(g, st, t) && t < |st.recs| && Settled(c)
    requires forall x: Id | x < |st.recs| && x != t :: CompletionOk(st.recs[x], st.log, x)
    requires CompletionOk(st.recs[t], st.log, t)
    requires CapabilityOk(g, st.recs[t].(topLevelCapability := c), t)
    ensures Books(g, Note(Put(st, t, st.recs[t].(topLevelCapability := c)), if c.Resolved? then CapabilityResolved(t) else CapabilityRejected(t)))
  {
    var e := if c.Resolved? then CapabilityResolved(t) else CapabilityRejected(t);
    var st1 := Note(Put(st, t, st.recs[t].(topLevelCapability := c)), e);
    NoteStarts(g, st.log, e);
    hide StartsInOrder;
    forall f: Event
      ensures EventCount(st1.log, f) == EventCount(st.log, f) + (if e == f then 1 else 0)
    {
      CountNote(st.log, e, f);
    }
    forall x: Id ensures LoggedAt(g, st1, None, x) {
      assert EntryOk(g, st, t, x);
      assert x < |st.recs| ==> CompletionOk(st.recs[x], st.log, x);
    }
  }

  lemma CapabilityRests(g: Graph, recs: Recs, t: Id, c: Capability)
    requires Structure(g, recs, []) && Counted(recs) && StartedFree(recs) && AsyncReachesTLA(g, recs) && t < |recs|
    ensures var r1 := recs[t := recs[t].(topLevelCapability := c)]; Wake.Quiescent(g, r1) && AsyncReachesTLA(g, r1)
  {
    var r1 := recs[t := recs[t].(topLevelCapability := c)];
    hide ReachesTLA, Occ, Reach;
    assert RecordOk(g, t, recs[t], false);
    Wake.PutLinks(recs, t, r1[t]);
    Wake.PutRecordsOk(g, recs, t, r1[t], []);
    Wake.StructureKept(g, recs, r1, []);
    Wake.LinkFacts(recs, r1);
    hide Structure, RecordsOk, RecordOk;
    assert LiveSet(r1) == LiveSet(recs);
    forall p: Id | Waiting(r1, p) && !Errored(r1, Root(r1, p)) ensures PendingOk(r1, LiveSet(r1), p) && StartOk(r1, p) {
      assert PendingOk(recs, LiveSet(recs), p) && StartOk(recs, p);
      Wake.LinksOcc(recs, r1, LiveSet(recs), p);
    }
    forall x: Id | Async(r1, x) ensures ReachesTLA(g, x) { assert Async(recs, x); }
  }

  /** The walk has ended without an error: resolve the capability, or leave it pending. */
  lemma ReturnOk(w: World, st: State, t: Id)
    requires Evaluates(w.g, st, [], {}, Some(t), t) && TargetDone(w.g, st.recs, t)
    ensures var st1 := if !w.g.Cyclic(t) || !Get(st, t).asyncEvaluation then ResolveCapability(st, t) else st;
      Resting(w.g, st1) && (st1.recs[t].topLevelCapability.Pending? <==> w.g.Cyclic(t) && Waiting(st.recs, t))
      && (st1.recs[t].topLevelCapability.Pending? || st1.recs[t].topLevelCapability.Resolved?)
  {
    var g := w.g;
    CountsAtRest(st.recs);
    hide StackOk, BlackMet, BlackAnchored, CountsOn, Counted, StartedFree, AsyncReachesTLA;
    assert RecordOk(g, t, st.recs[t], false);
    assert EntryOk(g, st, t, t);
    hide RecordsOk, RootsOk, RequestsMet, EdgesUp, ErrorsUp, CycleParents;
    hide Structure;
    if !g.Cyclic(t) || !st.recs[t].asyncEvaluation {
      CapabilityRests(g, st.recs, t, Resolved);
      hide StartsInOrder;
      SettleTarget(g, st, t, Resolved);
      hide Books, Entries;
    } else {
      EntriesAreBooks(g, st, t);
      hide Books, Entries;
    }
  }

  // ── The end, when an error was thrown ────────────────────────────────────

  ghost predicate FailedAll(recs: Recs, r1: Recs, s: seq<Id>, e: Error) {
    |recs| == |r1| &&
    forall x: Id | x < |recs| :: r1[x] == if x in s then recs[x].(status := Evaluated, hasError := true, error := e) else recs[x]
  }

  lemma {:induction false} FailAllOk(st: State, s: seq<Id>, e: Error)
    ensures FailedAll(st.recs, FailAll(st, s, e).recs, s, e)
    ensures FailAll(st, s, e) == st.(recs := FailAll(st, s, e).recs)
    decreases |s|
  {
    if s != [] {
      FailAllOk(Put(st, s[0], Get(st, s[0]).(status := Evaluated, hasError := true, error := e)), s[1..], e);
      assert forall x :: x in s <==> x == s[0] || x in s[1..];
    }
  }

  /** Some module that is still unsettled has a parent among those the error unwinds. */
  ghost predicate Stranding(recs: Recs, s: seq<Id>) {
    exists x: Id, p: Id :: Waiting(recs, x) && p in Parents(recs, x) && p in s
  }

  lemma FailAllFacts(g: Graph, recs: Recs, r1: Recs, s: seq<Id>, e: Error)
    requires RecordsOk(g, recs, s) && FailedAll(recs, r1, s, e)
    ensures RecordsOk(g, r1, [])
    ensures forall x | x in s ::
        x < |recs| && g.Cyclic(x) && !Rooted(recs, x) && !Waiting(recs, x) && !Fine(recs, x) && recs[x].status.Evaluating? && !recs[x].hasError
    ensures forall x: Id :: Waiting(r1, x) == Waiting(recs, x) && Fine(r1, x) == Fine(recs, x)
    ensures forall x: Id :: Errored(r1, x) <==> Errored(recs, x) || x in s
    ensures forall x: Id :: Rooted(r1, x) == Rooted(recs, x) && Root(r1, x) == Root(recs, x)
    ensures forall x: Id ::
        Parents(r1, x) == Parents(recs, x) && Order(r1, x) == Order(recs, x) && Async(r1, x) == Async(recs, x)
    ensures forall x: Id | !g.Cyclic(x) :: SyntheticDone(r1, x) == SyntheticDone(recs, x)
  {
    forall x | x in s
      ensures
        && x < |recs|
        && g.Cyclic(x)
        && !Rooted(recs, x)
        && !Waiting(recs, x)
        && !Fine(recs, x)
        && recs[x].status.Evaluating?
        && !recs[x].hasError
    {
      assert RecordOk(g, x, recs[x], x in s);
    }
    forall x: Id | x < |recs| ensures RecordOk(g, x, r1[x], x in []) { assert RecordOk(g, x, recs[x], x in s); }
  }

  lemma FailAllStructure(g: Graph, recs: Recs, r1: Recs, s: seq<Id>, e: Error)
    requires Structure(g, recs, s) && FailedAll(recs, r1, s, e) && !Stranding(recs, s)
    ensures Structure(g, r1, [])
  {
    FailAllFacts(g, recs, r1, s, e);
    hide Reach, RecordsOk, FailedAll;
    forall x: Id | Rooted(r1, x) ensures RootOk(g, r1, x) { assert RootOk(g, recs, x); }
    forall x: Id, y: Id | Rooted(r1, x) && y in g.Requested(x) ensures RequestMet(g, r1, x, y) {
      assert RequestMet(g, recs, x, y);
    }
    forall x: Id, p: Id | p in Parents(r1, x) && (Rooted(r1, x) || x in []) ensures EdgeOk(g, r1, [], x, p) {
      assert EdgeOk(g, recs, s, x, p);
    }
    forall x: Id | Rooted(r1, x) && Root(r1, x) != x && (Waiting(r1, x) || Errored(r1, x))
      ensures HasCycleParent(r1, x)
    {
      assert HasCycleParent(recs, x);
      var p :| p in Parents(recs, x) && Rooted(recs, p) && Root(recs, p) == Root(recs, x);
      assert p in Parents(r1, x) && Rooted(r1, p) && Root(r1, p) == Root(r1, x);
    }
  }

  lemma FailAllCounts(g: Graph, recs: Recs, r1: Recs, s: seq<Id>, e: Error)
    requires Structure(g, recs, s) && FailedAll(recs, r1, s, e)
    requires CountsOn(recs, s) && StartedFree(recs) && AsyncReachesTLA(g, recs)
    ensures Counted(r1) && StartedFree(r1) && AsyncReachesTLA(g, r1)
  {
    FailAllFacts(g, recs, r1, s, e);
    var live, live1 := LiveOn(recs, s), LiveSet(r1);
    hide Reach, RecordsOk, ReachesTLA, Occ, RequestsMet, ErrorsUp, CycleParents;
    forall p: Id | Waiting(r1, p) && !Errored(r1, Root(r1, p)) ensures PendingOk(r1, live1, p) && StartOk(r1, p) {
      assert Wake.Eligible(recs, p);
      assert PendingOk(recs, live, p) && StartOk(recs, p);
      assert p !in s;
      forall x: Id | x < |recs| ensures Share(recs, live, p, x) == Share(r1, live1, p, x) {
        if x in s {
          CountIn(Parents(recs, x), p);
          assert p in Parents(recs, x) ==> EdgeOk(g, recs, s, x, p);
        }
      }
      OccSame(recs, r1, live, live1, p);
    }
    forall x: Id | Async(r1, x) ensures ReachesTLA(g, x) { assert Async(recs, x); }
  }

  lemma FailAllEntries(g: Graph, st: State, st1: State, s: seq<Id>, e: Error, t: Id)
    requires Thrown(g, st, s, t) && FailedAll(st.recs, st1.recs, s, e) && st1 == st.(recs := st1.recs)
    ensures Entries(g, st1, t) && Completions(st1)
  {
    FailAllFacts(g, st.recs, st1.recs, s, e);
    hide Structure, CountsOn, StartedFree, AsyncReachesTLA, StartsInOrder;
    forall x: Id ensures EntryOk(g, st1, t, x) { assert EntryOk(g, st, t, x); }
    forall x: Id | x < |st1.recs| ensures CompletionOk(st1.recs[x], st1.log, x) {
      if x !in s { assert CompletionOk(st.recs[x], st.log, x); }
    }
  }

  /** The stacked records take the error, and so does the target's capability. */
  lemma FailAllRests(g: Graph, st: State, s: seq<Id>, e: Error, t: Id)
    requires Thrown(g, st, s, t) && !Stranding(st.recs, s) && t < |st.recs|
    requires t in s || (Errored(st.recs, t) && st.recs[t].error == e)
    ensures Resting(g, RejectCapability(FailAll(st, s, e), t, e))
    ensures FailAll(st, s, e).recs[t].hasError && FailAll(st, s, e).recs[t].error == e
    ensures RejectCapability(FailAll(st, s, e), t, e).recs[t].topLevelCapability == Capability.Rejected(e)
  {
    var st1 := FailAll(st, s, e);
    FailAllOk(st, s, e);
    FailAllStructure(g, st.recs, st1.recs, s, e);
    FailAllCounts(g, st.recs, st1.recs, s, e);
    FailAllEntries(g, st, st1, s, e, t);
    hide Thrown, Structure, Counted, StartedFree, AsyncReachesTLA, FailAll, Stranding;
    assert EntryOk(g, st1, t, t);
    assert CompletionOk(st1.recs[t], st1.log, t);
    CapabilityRests(g, st1.recs, t, Capability.Rejected(e));
    hide StartsInOrder;
    SettleTarget(g, st1, t, Capability.Rejected(e));
  }

  /** Otherwise the unwound parent never gets a cycle root, and the loader is not at rest. */
  lemma StrandingUnrests(g: Graph, recs: Recs, r1: Recs, s: seq<Id>, e: Error)
    requires RecordsOk(g, recs, s) && FailedAll(recs, r1, s, e) && Stranding(recs, s)
    ensures !Structure(g, r1, [])
  {
    FailAllFacts(g, recs, r1, s, e);
    var x: Id, p: Id :| Waiting(recs, x) && p in Parents(recs, x) && p in s;
    assert RecordOk(g, x, r1[x], x in []);
    assert !EdgeOk(g, r1, [], x, p);
  }

  // ── What evaluate(m) does ────────────────────────────────────────────────

  /** `m` has no promise to hand out yet, so a call of `evaluate(m)` makes one and walks. */
  predicate Walks(w: World, st: State, m: Id) {
    Get(st, Target(w, st, m)).topLevelCapability.NoCapability?
  }

  /** H2 is violated: the walk throws past a module some unsettled module already has as a parent. */
  ghost predicate Strands(w: World, st: State, m: Id) {
    Walks(w, st, m) &&
    var r := Attempt(w, st, Target(w, st, m));
    r.thrown.Some? && Stranding(r.st.recs, r.stack)
  }

  lemma TargetInRange(w: World, st: State, m: Id)
    requires Resting(w.g, st) && m < |st.recs|
    ensures var t := Target(w, st, m);
      && t < |st.recs| && (Rooted(st.recs, t) ==> Root(st.recs, t) == t)
      && (Rooted(st.recs, m) ==> t == Root(st.recs, m)) && (t != m ==> Rooted(st.recs, m))
  {
    hide Reach, Books, Counted, StartedFree, AsyncReachesTLA, RequestsMet, EdgesUp, ErrorsUp, CycleParents;
    assert RecordOk(w.g, m, st.recs[m], false);
    if Rooted(st.recs, m) { assert RootOk(w.g, st.recs, m); }
  }

  /** The walk of a fresh call: it ends with an empty stack, or with the target on the stack. */
  lemma AttemptOk(w: World, st: State, t: Id)
    requires w.g.Loaded() && Resting(w.g, st) && t < |st.recs| && st.recs[t].topLevelCapability.NoCapability?
    ensures var r := Attempt(w, st, t);
      if r.thrown.None? then CallDone(w.g, Opened(st, t), [], r.st, r.stack, {}, t, r.index, t) && Ascend.OwnRoot(w.g, Opened(st, t), r, t)
      else Ascend.CallThrew(w.g, Opened(st, t), [], r, t, t)
  {
    MayBegin(w.g, st, t);
    hide Resting, MayEnter, CallDone, Ascend.CallThrew, Ascend.OwnRoot, InnerModuleEvaluation;
    Ascend.WalkOk(w, Opened(st, t), [], {}, t, 0, t);
  }

  /** A target that has been walked before is not walked again. */
  lemma AttemptVisited(w: World, st: State, t: Id)
    requires Resting(w.g, st) && t < |st.recs| && w.g.Cyclic(t) && Visited(st.recs[t].status)
    ensures Attempt(w, st, t) == Walk(Opened(st, t), [], 0, if st.recs[t].hasError then Some(st.recs[t].error) else None)
    ensures Rooted(st.recs, t) || st.recs[t].hasError
  {
    hide Books, Counted, StartedFree, AsyncReachesTLA, RootsOk, RequestsMet, EdgesUp, ErrorsUp, CycleParents;
    assert RecordOk(w.g, t, st.recs[t], false);
    hide EvaluateRequests, FinishCall;
  }

  lemma TargetIsDone(w: World, st: State, t: Id)
    requires w.g.Loaded() && Resting(w.g, st) && t < |st.recs| && st.recs[t].topLevelCapability.NoCapability?
    requires Rooted(st.recs, t) ==> Root(st.recs, t) == t
    requires Attempt(w, st, t).thrown.None?
    ensures var r := Attempt(w, st, t); r.stack == [] && Evaluates(w.g, r.st, [], {}, Some(t), t) && TargetDone(w.g, r.st.recs, t)
    ensures var r := Attempt(w, st, t); t in Gone(w.g, r.st.recs)
  {
    AttemptOk(w, st, t);
    var r := Attempt(w, st, t);
    if w.g.Cyclic(t) && Visited(st.recs[t].status) { AttemptVisited(w, st, t); }
    hide Attempt, Resting, Evaluates, Returned, ParentsAbove, Grows;
    TargetFromCall(w, st, t, r);
    hide *;
    WalkEmpties(w.g, Opened(st, t), r.st, r.stack, t, r.index);
  }

  lemma TargetFromCall(w: World, st: State, t: Id, r: Walk)
    requires
      && CallDone(w.g, Opened(st, t), [], r.st, r.stack, {}, t, r.index, t)
      && Ascend.OwnRoot(w.g, Opened(st, t), r, t)
    requires t < |st.recs| && (Rooted(st.recs, t) ==> Root(st.recs, t) == t)
    requires w.g.Cyclic(t) && Visited(st.recs[t].status) ==> Rooted(st.recs, t) && r.st == Opened(st, t)
    ensures TargetDone(w.g, r.st.recs, t)
  {
    WalkEmpties(w.g, Opened(st, t), r.st, r.stack, t, r.index);
    EvaluatesRecords(w.g, r.st, [], {}, Some(t), t);
    hide Evaluates, Returned, ParentsAbove, Grows, RecordsOk, RootsOk;
    assert t in Gone(w.g, r.st.recs);
  }

  /** Without a throw, the call keeps the loader at rest; the promise handed out is
      resolved unless the target is now evaluating asynchronously. */
  lemma EvaluateReturns(w: World, st: State, m: Id)
    requires w.g.Loaded() && Resting(w.g, st) && m < |st.recs| && Walks(w, st, m)
    requires Attempt(w, st, Target(w, st, m)).thrown.None?
    ensures var t, st1 := Target(w, st, m), Evaluate(w, st, m);
      && Resting(w.g, st1) && t < |st1.recs|
      && st1.recs[t].topLevelCapability == (if w.g.Cyclic(t) && Waiting(st1.recs, t) then Pending else Resolved)
  {
    var t := Target(w, st, m);
    TargetInRange(w, st, m);
    TargetIsDone(w, st, t);
    var r := Attempt(w, st, t);
    hide Attempt, Target, Resting, Evaluates;
    ReturnOk(w, r.st, t);
    hide TargetDone;
  }

  /** What the `catch` of evaluate leaves, when the walk for `t` has thrown. */
  function Caught(w: World, r: Walk, t: Id): State {
    var e := if r.thrown.Some? then r.thrown.value else 0;
    var st1 := FailAll(r.st, r.stack, e);
    var st2 := if w.g.Cyclic(t) then st1 else Put(st1, t, Get(st1, t).(hasError := true, error := e));
    RejectCapability(st2, t, e)
  }

  lemma CaughtPlain(w: World, st0: State, r: Walk, t: Id)
    requires Ascend.CallThrew(w.g, st0, [], r, t, t)
    ensures Caught(w, r, t) == RejectCapability(FailAll(r.st, r.stack, r.thrown.value), t, r.thrown.value)
    ensures t in r.stack || (Errored(r.st.recs, t) && r.st.recs[t].error == r.thrown.value)
  {
    hide Thrown, RejectCapability;
    if !w.g.Cyclic(t) {
      var e, st1 := r.thrown.value, FailAll(r.st, r.stack, r.thrown.value);
      assert r.stack == [] && st1 == r.st;
      assert st1.recs[t].(hasError := true, error := e) == st1.recs[t];
      assert st1.recs[t := st1.recs[t]] == st1.recs;
    }
  }

  lemma EvaluateThrows(w: World, st: State, m: Id)
    requires w.g.Loaded() && Resting(w.g, st) && m < |st.recs| && Walks(w, st, m)
    requires Attempt(w, st, Target(w, st, m)).thrown.Some? && !Strands(w, st, m)
    ensures var t, st1 := Target(w, st, m), Evaluate(w, st, m);
      var e := Attempt(w, st, t).thrown.value;
      && Resting(w.g, st1) && t < |st1.recs|
      && st1.recs[t].topLevelCapability == Capability.Rejected(e) && st1.recs[t].hasError && st1.recs[t].error == e
  {
    var t := Target(w, st, m);
    TargetInRange(w, st, m);
    AttemptOk(w, st, t);
    var r := Attempt(w, st, t);
    hide Attempt, Target, Resting;
    CaughtPlain(w, Opened(st, t), r, t);
    assert Evaluate(w, st, m) == Caught(w, r, t);
    hide Caught, Stranding, Thrown, Evaluate;
    ThrownRange(w.g, r.st, r.stack, t);
    FailAllRests(w.g, r.st, r.stack, r.thrown.value, t);
    FailAllOk(r.st, r.stack, r.thrown.value);
    hide FailAll;
  }

  lemma ThrownRange(g: Graph, st: State, s: seq<Id>, t: Id)
    requires Thrown(g, st, s, t)
    ensures forall x | x in s :: x < |st.recs|
    ensures RecordsOk(g, st.recs, s)
  {
    hide CountsOn, StartedFree, AsyncReachesTLA, Entries, RootsOk, RequestsMet, EdgesUp, ErrorsUp, CycleParents;
  }

  lemma EvaluateStrands(w: World, st: State, m: Id)
    requires w.g.Loaded() && Resting(w.g, st) && m < |st.recs| && Strands(w, st, m)
    ensures !Resting(w.g, Evaluate(w, st, m))
  {
    var t := Target(w, st, m);
    TargetInRange(w, st, m);
    AttemptOk(w, st, t);
    var r := Attempt(w, st, t);
    hide Attempt, Target, Resting;
    CaughtPlain(w, Opened(st, t), r, t);
    assert Evaluate(w, st, m) == Caught(w, r, t);
    hide Caught, Stranding, Evaluate;
    ThrownRange(w.g, r.st, r.stack, t);
    var e := r.thrown.value;
    var st1 := FailAll(r.st, r.stack, e);
    FailAllOk(r.st, r.stack, e);
    hide FailAll;
    StrandingUnrests(w.g, r.st.recs, st1.recs, r.stack, e);
    RejectUnrests(w.g, st1, t, e);
  }

  lemma RejectUnrests(g: Graph, st: State, t: Id, e: Error)
    requires t < |st.recs| && !Structure(g, st.recs, []) && |st.recs| == |g.mods|
    ensures !Resting(g, RejectCapability(st, t, e))
  {
    var st1 := RejectCapability(st, t, e);
    if Structure(g, st1.recs, []) {
      var recs := st.recs;
      assert recs == st1.recs[t := recs[t]];
      Wake.PutLinks(st1.recs, t, recs[t]);
      assert RecordOk(g, t, st1.recs[t], false);
      Wake.PutRecordsOk(g, st1.recs, t, recs[t], []);
      hide Structure;
      Wake.StructureKept(g, st1.recs, recs, []);
    }
  }

  /** A call of `evaluate` between steps leaves the loader at rest, with all its
      invariants, exactly when it does not throw past a registered parent. */
  lemma EvaluateRests(w: World, st: State, m: Id)
    requires w.g.Loaded() && Resting(w.g, st) && m < |st.recs|
    ensures Resting(w.g, Evaluate(w, st, m)) <==> !Strands(w, st, m)
  {
    if Walks(w, st, m) {
      var r := Attempt(w, st, Target(w, st, m));
      hide Resting, Attempt, Stranding;
      if r.thrown.None? { EvaluateReturns(w, st, m); }
      else if Strands(w, st, m) { EvaluateStrands(w, st, m); }
      else { EvaluateThrows(w, st, m); }
    }
  }

  // ── A call only moves records on ─────────────────────────────────────────

  lemma CapabilityEvolves(recs: Recs, t: Id, c: Capability)
    requires t < |recs|
    ensures EvolvesAll(recs, recs[t := recs[t].(topLevelCapability := c)])
  {
    var r1 := recs[t := recs[t].(topLevelCapability := c)];
    forall x: Id ensures EvolvesAt(recs, r1, x) {}
  }

  lemma FailAllEvolves(g: Graph, recs: Recs, r1: Recs, s: seq<Id>, e: Error)
    requires RecordsOk(g, recs, s) && FailedAll(recs, r1, s, e)
    ensures EvolvesAll(recs, r1)
  {
    FailAllFacts(g, recs, r1, s, e);
    hide RecordsOk;
    forall x: Id ensures EvolvesAt(recs, r1, x) {}
  }

  lemma AttemptEvolves(w: World, st: State, t: Id)
    requires w.g.Loaded() && Resting(w.g, st) && t < |st.recs| && st.recs[t].topLevelCapability.NoCapability?
    ensures EvolvesAll(st.recs, Attempt(w, st, t).st.recs) && st.log <= Attempt(w, st, t).st.log
  {
    AttemptOk(w, st, t);
    CapabilityEvolves(st.recs, t, Pending);
    var r, st0 := Attempt(w, st, t), Opened(st, t);
    hide Attempt, Evaluates, Returned, ParentsAbove, Resting, Thrown, EvolvesAll, Grows;
    if r.thrown.None? { GrowsEvolves(st0.recs, r.st.recs, [], r.stack); }
    EvolvesTrans(st.recs, st0.recs, r.st.recs);
  }

  /** What evaluate leaves when the walk for `t` has returned. */
  function Returning(w: World, st: State, t: Id): State {
    if !w.g.Cyclic(t) || !Get(st, t).asyncEvaluation then ResolveCapability(st, t) else st
  }

  lemma EvaluateUnfolds(w: World, st: State, m: Id)
    ensures var t := Target(w, st, m);
      Evaluate(w, st, m) == if !Walks(w, st, m) then st
        else if Attempt(w, st, t).thrown.None? then Returning(w, Attempt(w, st, t).st, t) else Caught(w, Attempt(w, st, t), t)
  {
    hide Target, Attempt, ResolveCapability, RejectCapability, FailAll;
  }

  lemma ReturningEvolves(w: World, st: State, t: Id)
    ensures EvolvesAll(st.recs, Returning(w, st, t).recs) && st.log <= Returning(w, st, t).log
  {
    EvolvesRefl(st.recs);
    if t < |st.recs| {
      CapabilityEvolves(st.recs, t, if st.recs[t].topLevelCapability.Pending? then Resolved else st.recs[t].topLevelCapability);
    }
    hide EvolvesAll;
  }

  /** Evaluate only moves records on, whether it returns or throws. */
  lemma EvaluateEvolves(w: World, st: State, m: Id)
    requires w.g.Loaded() && Resting(w.g, st) && m < |st.recs|
    ensures EvolvesAll(st.recs, Evaluate(w, st, m).recs) && st.log <= Evaluate(w, st, m).log
  {
    EvaluateUnfolds(w, st, m);
    EvolvesRefl(st.recs);
    if Walks(w, st, m) { WalkEvolves(w, st, m); }
    hide *;
  }

  lemma WalkEvolves(w: World, st: State, m: Id)
    requires w.g.Loaded() && Resting(w.g, st) && m < |st.recs| && Walks(w, st, m)
    ensures var r, t := Attempt(w, st, Target(w, st, m)), Target(w, st, m);
      var st1 := if r.thrown.None? then Returning(w, r.st, t) else Caught(w, r, t);
      EvolvesAll(st.recs, st1.recs) && st.log <= st1.log
  {
    var t := Target(w, st, m);
    TargetInRange(w, st, m);
    assert st.recs[t].topLevelCapability.NoCapability? by { hide Resting, Target; }
    hide *;
    AttemptOk(w, st, t);
    AttemptEvolves(w, st, t);
    var r := Attempt(w, st, t);
    if r.thrown.None? {
      ReturningEvolves(w, r.st, t);
      EvolvesTrans(st.recs, r.st.recs, Returning(w, r.st, t).recs);
    } else {
      CaughtEvolves(w, Opened(st, t), r, t);
      EvolvesTrans(st.recs, r.st.recs, Caught(w, r, t).recs);
    }
  }

  lemma CaughtEvolves(w: World, st0: State, r: Walk, t: Id)
    requires Ascend.CallThrew(w.g, st0, [], r, t, t)
    ensures EvolvesAll(r.st.recs, Caught(w, r, t).recs) && r.st.log <= Caught(w, r, t).log
  {
    CaughtPlain(w, st0, r, t);
    hide Thrown, Caught, EvolvesAll;
    var e := r.thrown.value;
    var st1 := FailAll(r.st, r.stack, e);
    FailAllOk(r.st, r.stack, e);
    ThrownRange(w.g, r.st, r.stack, t);
    FailAllEvolves(w.g, r.st.recs, st1.recs, r.stack, e);
    hide FailAll;
    EvolvesRefl(st1.recs);
    if t < |st1.recs| {
      CapabilityEvolves(st1.recs, t, if st1.recs[t].topLevelCapability.Pending? then Capability.Rejected(e) else st1.recs[t].topLevelCapability);
    }
    var st2 := RejectCapability(st1, t, e);
    assert EvolvesAll(st1.recs, st2.recs);
    EvolvesTrans(r.st.recs, st1.recs, st2.recs);
  }
}
