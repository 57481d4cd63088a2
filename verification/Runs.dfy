/** Whole runs: any sequence of links, calls of evaluate and settlements of started
    bodies, each taken when no code of the loader is running. */
module Runs {
  import opened ModuleGraph
  import opened Reachability
  import opened Records
  import opened Evaluation
  import opened AsyncState
  import opened Descend
  import opened EvaluateCall
  import opened Wake
  import opened Moves
  import Linker

  // ── Runs ─────────────────────────────────────────────────────────────────

  datatype Step =
    | Links(after: State)
    | Calls(m: Id)
    | Fulfils(m: Id)
    | Rejects(m: Id, error: Error)

  /** The steps a host may take in a state. Only linked graphs are evaluated, and H2
      forbids a call that strands a parent. */
  ghost predicate May(w: World, st: State, step: Step) {
    match step
    case Links(after) => Prepares(w.g, st, after) && LinkedOk(w.g, after.recs)
    case Calls(m) => m < |st.recs| && Linker.GraphLinked(w.g, st.recs, m) && !Strands(w, st, m)
    case Fulfils(m) => m < |st.recs| && st.recs[m].body.Running?
    case Rejects(m, _) => m < |st.recs| && st.recs[m].body.Running?
  }

  /** What holds between any two steps. */
  ghost predicate Ready(g: Graph, st: State) {
    Resting(g, st) && LinkedOk(g, st.recs)
  }

  function Next(w: World, st: State, step: Step): State {
    match step
    case Links(after) => after
    case Calls(m) => Evaluate(w, st, m)
    case Fulfils(m) => SettleOk(w, st, m).st
    case Rejects(m, e) => SettleError(w, st, m, e)
  }

  ghost predicate Run(w: World, st: State, steps: seq<Step>)
    decreases |steps|
  {
    steps == [] || (May(w, st, steps[0]) && Run(w, Next(w, st, steps[0]), steps[1..]))
  }

  function After(w: World, st: State, steps: seq<Step>): State
    decreases |steps|
  {
    if steps == [] then st else After(w, Next(w, st, steps[0]), steps[1..])
  }

  function Initial(g: Graph): State {
    State(seq(|g.mods|, _ => Fresh()), 0, 0, [])
  }

  lemma InitialReady(g: Graph)
    requires g.Loaded()
    ensures Ready(g, Initial(g))
  {
    var st := Initial(g);
    assert forall x: Id | x < |st.recs| :: st.recs[x] == Fresh();
    InitialRests(g);
    hide Resting;
    assert Linker.LinkQuiet(g, st.recs) && LinkedOk(g, st.recs) by { assert forall x: Id | x < |st.recs| :: EnvironmentOk(st.recs[x]); }
  }

  lemma InitialRests(g: Graph)
    requires g.Loaded()
    ensures Resting(g, Initial(g))
  {
    var st := Initial(g);
    forall x: Id | x < |st.recs| ensures RecordOk(g, x, st.recs[x], false) { assert st.recs[x] == Fresh(); }
    forall x: Id ensures LoggedAt(g, st, None, x) { assert x < |st.recs| ==> st.recs[x] == Fresh(); }
    assert forall x: Id | x < |st.recs| :: st.recs[x] == Fresh();
  }

  /** Every step keeps the loader at rest. */
  lemma NextRests(w: World, st: State, step: Step)
    requires w.g.Loaded() && Resting(w.g, st) && May(w, st, step)
    ensures Resting(w.g, Next(w, st, step))
  {
    match step
    case Links(after) =>
      hide Resting, Prepares, LinkedOk;
      PreparedRests(w.g, st, after);
    case Calls(m) =>
      hide Resting, Strands, Evaluate, Linker.GraphLinked;
      EvaluateRests(w, st, m);
    case Fulfils(m) =>
      SettleOkQuiescent(w, st, m);
      SettleOkOnward(w, st, m);
      hide Quiescent, Books, AsyncReachesTLA, Onward, SettleOk;
      OnwardTLA(w.g, st, SettleOk(w, st, m).st);
    case Rejects(m, e) =>
      SettleErrorQuiescent(w, st, m, e);
      SettleErrorOnward(w, st, m, e);
      hide Quiescent, Books, AsyncReachesTLA, Onward, SettleError;
      OnwardTLA(w.g, st, SettleError(w, st, m, e));
  }

  lemma RestingRecords(g: Graph, st: State)
    requires Resting(g, st)
    ensures RecordsOk(g, st.recs, [])
  {
    hide Books, Counted, StartedFree, AsyncReachesTLA;
  }

  lemma EvaluateLinked(w: World, st: State, m: Id)
    requires
      && w.g.Loaded()
      && Ready(w.g, st)
      && m < |st.recs|
      && Linker.GraphLinked(w.g, st.recs, m)
      && !Strands(w, st, m)
    ensures LinkedOk(w.g, Evaluate(w, st, m).recs)
  {
    var gone, st1 := Linker.Gone(w.g, st.recs), Evaluate(w, st, m);
    EvaluateEvolves(w, st, m);
    EvaluateRests(w, st, m);
    TargetInRange(w, st, m);
    TargetReached(w, st, m);
    assert Closed(Imports(w.g), gone) by { hide Resting, Reach; }
    assert Target(w, st, m) in gone by { hide Resting, LinkedOk, Reach; }
    EvaluateInside(w, st, m, gone);
    RestingRecords(w.g, st1);
    hide Resting, LinkedOk, Evaluate, Target, EvolvesAt, Closed, RecordsOk;
    LinkedKept(w.g, st.recs, st1.recs);
  }

  lemma TargetReached(w: World, st: State, m: Id)
    requires Resting(w.g, st) && m < |st.recs|
    ensures Reach(Imports(w.g), m, Target(w, st, m))
  {
    hide Reach, Books, Counted, StartedFree, AsyncReachesTLA, RecordsOk, RequestsMet, EdgesUp, ErrorsUp, CycleParents;
    ReachRefl(Imports(w.g), m);
    if Rooted(st.recs, m) { assert RootOk(w.g, st.recs, m); }
  }

  lemma OnwardLinked(g: Graph, st: State, st1: State)
    requires LinkedOk(g, st.recs) && Onward(st, st1) && Resting(g, st1)
    ensures LinkedOk(g, st1.recs)
  {
    OnwardWithin(g, st, st1);
    RestingRecords(g, st1);
    hide Resting, Onward, LinkedOk, Within;
    LinkedKept(g, st.recs, st1.recs);
  }

  /** Every step keeps every invariant. */
  lemma NextReady(w: World, st: State, step: Step)
    requires w.g.Loaded() && Ready(w.g, st) && May(w, st, step)
    ensures Ready(w.g, Next(w, st, step))
  {
    NextRests(w, st, step);
    match step
    case Links(after) =>
      hide Resting, LinkedOk;
    case Calls(m) =>
      hide Resting, LinkedOk, Evaluate, Strands;
      EvaluateLinked(w, st, m);
    case Fulfils(m) =>
      SettleOkOnward(w, st, m);
      hide Resting, LinkedOk, Onward, SettleOk;
      OnwardLinked(w.g, st, SettleOk(w, st, m).st);
    case Rejects(m, e) =>
      SettleErrorOnward(w, st, m, e);
      hide Resting, LinkedOk, Onward, SettleError;
      OnwardLinked(w.g, st, SettleError(w, st, m, e));
  }

  lemma {:induction false} RunStaysReady(w: World, st: State, steps: seq<Step>)
    requires w.g.Loaded() && Ready(w.g, st) && Run(w, st, steps)
    ensures Ready(w.g, After(w, st, steps))
    decreases |steps|
  {
    hide Ready, May, Next;
    if steps != [] {
      NextReady(w, st, steps[0]);
      RunStaysReady(w, Next(w, st, steps[0]), steps[1..]);
    }
  }

  /** The loader's state after a run from the beginning. */
  lemma Reached(w: World, steps: seq<Step>)
    requires w.g.Loaded() && Run(w, Initial(w.g), steps)
    ensures Ready(w.g, After(w, Initial(w.g), steps)) && Resting(w.g, After(w, Initial(w.g), steps))
  {
    InitialReady(w.g);
    hide Resting, Run, LinkedOk;
    RunStaysReady(w, Initial(w.g), steps);
  }

  // ── What has settled stays settled ───────────────────────────────────────

  /** A settled record keeps its verdict; at most its suspended body runs out. */
  ghost predicate Keeps(a: Rec, b: Rec) {
    && (a.status.Evaluated? ==> b.status.Evaluated? && b.hasError == a.hasError && b.error == a.error)
    && (a.status.Evaluated? ==> b.body == a.body || (a.body.Running? && b.body.Over?))
    && (!a.body.Unstarted? ==> !b.body.Unstarted? && b.getters == a.getters && b.imp == a.imp)
  }

  ghost predicate KeepsAll(r0: Recs, r1: Recs) {
    |r0| == |r1| && forall x: Id {:trigger Keeps(r0[x], r1[x])} | x < |r0| :: Keeps(r0[x], r1[x])
  }

  lemma EvolvesKeeps(r0: Recs, r1: Recs)
    requires EvolvesAll(r0, r1)
    ensures KeepsAll(r0, r1)
  {
    forall x: Id | x < |r0| ensures Keeps(r0[x], r1[x]) { assert EvolvesAt(r0, r1, x); }
  }

  lemma NextKeeps(w: World, st: State, step: Step)
    requires w.g.Loaded() && Ready(w.g, st) && May(w, st, step)
    ensures KeepsAll(st.recs, Next(w, st, step).recs) && st.log <= Next(w, st, step).log
  {
    match step
    case Links(after) =>
      assert RecordsOk(w.g, st.recs, []) by { hide Books, Counted, StartedFree, AsyncReachesTLA, Prepares; }
      hide Resting;
      forall x: Id | x < |st.recs| ensures Keeps(st.recs[x], after.recs[x]) {
        assert PreparedAt(w.g, st.recs[x], after.recs[x], x) && RecordOk(w.g, x, st.recs[x], false);
      }
    case Calls(m) =>
      hide Resting, Strands, Evaluate, EvolvesAll;
      EvaluateEvolves(w, st, m);
      EvolvesKeeps(st.recs, Evaluate(w, st, m).recs);
    case Fulfils(m) =>
      hide Quiescent, Books, AsyncReachesTLA, SettleOk, EvolvesAll;
      SettleOkOnward(w, st, m);
      EvolvesKeeps(st.recs, SettleOk(w, st, m).st.recs);
    case Rejects(m, e) =>
      hide Quiescent, Books, AsyncReachesTLA, SettleError, EvolvesAll;
      SettleErrorOnward(w, st, m, e);
      EvolvesKeeps(st.recs, SettleError(w, st, m, e).recs);
  }

  lemma {:induction false} RunKeeps(w: World, st: State, steps: seq<Step>)
    requires w.g.Loaded() && Ready(w.g, st) && Run(w, st, steps)
    ensures KeepsAll(st.recs, After(w, st, steps).recs) && st.log <= After(w, st, steps).log
    decreases |steps|
  {
    hide Ready, May, Next, Keeps;
    if steps == [] {
      forall x: Id | x < |st.recs| ensures Keeps(st.recs[x], st.recs[x]) { KeepsRefl(st.recs[x]); }
    } else {
      var st1 := Next(w, st, steps[0]);
      NextReady(w, st, steps[0]);
      NextKeeps(w, st, steps[0]);
      RunKeeps(w, st1, steps[1..]);
      forall x: Id | x < |st.recs| ensures Keeps(st.recs[x], After(w, st1, steps[1..]).recs[x]) {
        KeepsTrans(st.recs[x], st1.recs[x], After(w, st1, steps[1..]).recs[x]);
      }
    }
  }

  lemma KeepsRefl(a: Rec)
    ensures Keeps(a, a)
  {
  }

  lemma KeepsTrans(a: Rec, b: Rec, c: Rec)
    requires Keeps(a, b) && Keeps(b, c)
    ensures Keeps(a, c)
  {
  }

  // ── Results over every run ───────────────────────────────────────────────

  /** When a body is entered, each of its requests outside its own import cycle, and all
      that request reaches, has completed. */
  lemma BodiesStartInOrder(w: World, steps: seq<Step>, k: nat, x: Id, v: Id, y: Id)
    requires w.g.Loaded() && Run(w, Initial(w.g), steps)
    requires var log := After(w, Initial(w.g), steps).log; k < |log| && log[k] == Began(x)
    requires v in w.g.Requested(x) && !MutualReach(Imports(w.g), x, v) && Reach(Imports(w.g), v, y)
    ensures Completed(y) in After(w, Initial(w.g), steps).log[..k]
  {
    Reached(w, steps);
    hide Quiescent, AsyncReachesTLA, Reach, After, Run;
    var st := After(w, Initial(w.g), steps);
    assert StartInOrder(w.g, st.log, k, x);
    assert CompletedBelow(w.g, st.log, k, v);
  }

  lemma BodyStartsOnce(w: World, steps: seq<Step>, x: Id)
    requires w.g.Loaded() && Run(w, Initial(w.g), steps) && x < |w.g.mods|
    ensures EventCount(After(w, Initial(w.g), steps).log, Began(x)) <= 1
  {
    Reached(w, steps);
    assert |After(w, Initial(w.g), steps).recs| == |w.g.mods| by { hide Books, AsyncReachesTLA, After, Run; }
    hide Quiescent, AsyncReachesTLA, After, Run;
    assert LoggedAt(w.g, After(w, Initial(w.g), steps), None, x);
  }

  /** A module that failed before its body was entered never enters it, whatever happens next. */
  lemma FailedNeverStarts(w: World, st: State, steps: seq<Step>, x: Id)
    requires w.g.Loaded() && Ready(w.g, st) && Run(w, st, steps)
    requires x < |st.recs| && st.recs[x].hasError && w.g.Cyclic(x) && st.recs[x].body.Unstarted?
    ensures EventCount(After(w, st, steps).log, Began(x)) == 0
    ensures var st1 := After(w, st, steps); x < |st1.recs| && st1.recs[x].hasError && st1.recs[x].error == st.recs[x].error
  {
    RunStaysReady(w, st, steps);
    RunKeeps(w, st, steps);
    var st1 := After(w, st, steps);
    hide After, Run;
    assert st.recs[x].status.Evaluated? by { hide Books, Counted, StartedFree, AsyncReachesTLA, RootsOk, RequestsMet, EdgesUp, ErrorsUp, CycleParents, Keeps; assert RecordOk(w.g, x, st.recs[x], false); }
    assert Keeps(st.recs[x], st1.recs[x]);
    hide Quiescent, AsyncReachesTLA, KeepsAll;
    assert LoggedAt(w.g, st1, None, x);
  }

  /** `pendingAsyncDependencies` is the number of times a module occurs, with multiplicity,
      in the parent lists of unsettled modules. */
  lemma PendingCountsOccurrences(w: World, steps: seq<Step>, p: Id)
    requires w.g.Loaded() && Run(w, Initial(w.g), steps)
    requires var recs := After(w, Initial(w.g), steps).recs; Waiting(recs, p) && !Errored(recs, Root(recs, p))
    ensures var recs := After(w, Initial(w.g), steps).recs; recs[p].pendingAsyncDependencies == Occ(recs, LiveSet(recs), p)
  {
    Reached(w, steps);
    hide Structure, StartedFree, Books, AsyncReachesTLA, Occ, After, Run;
    var recs := After(w, Initial(w.g), steps).recs;
    assert PendingOk(recs, LiveSet(recs), p);
  }

  /** Parents of an unsettled module come strictly later in the asynchronous order. */
  lemma ParentsComeLater(w: World, steps: seq<Step>, x: Id, p: Id)
    requires w.g.Loaded() && Run(w, Initial(w.g), steps)
    requires var recs := After(w, Initial(w.g), steps).recs; Waiting(recs, x) && p in Parents(recs, x)
    ensures var recs := After(w, Initial(w.g), steps).recs;
      Order(recs, x) < Order(recs, p) && Rooted(recs, p) && Reach(Imports(w.g), p, x)
  {
    Reached(w, steps);
    hide Counted, StartedFree, Books, AsyncReachesTLA, After, Run, Reach, RootsOk, RequestsMet, ErrorsUp, CycleParents;
    var recs := After(w, Initial(w.g), steps).recs;
    assert RecordOk(w.g, x, recs[x], false);
    assert EdgeOk(w.g, recs, [], x, p);
  }

  /** No capability is ever settled twice. */
  lemma CapabilitySettledOnce(w: World, steps: seq<Step>, x: Id)
    requires w.g.Loaded() && Run(w, Initial(w.g), steps) && x < |w.g.mods|
    ensures var log := After(w, Initial(w.g), steps).log;
      EventCount(log, CapabilityResolved(x)) + EventCount(log, CapabilityRejected(x)) <= 1
  {
    Reached(w, steps);
    assert |After(w, Initial(w.g), steps).recs| == |w.g.mods| by { hide Books, AsyncReachesTLA, After, Run; }
    hide Quiescent, AsyncReachesTLA, After, Run;
    assert LoggedAt(w.g, After(w, Initial(w.g), steps), None, x);
  }

  /** Once no started body is suspended, every capability handed out has been settled. */
  lemma EveryCapabilitySettles(w: World, steps: seq<Step>, x: Id)
    requires w.g.Loaded() && Run(w, Initial(w.g), steps)
    requires var recs := After(w, Initial(w.g), steps).recs; x < |recs| && forall y: Id | y < |recs| :: !recs[y].body.Running?
    ensures !After(w, Initial(w.g), steps).recs[x].topLevelCapability.Pending?
  {
    Reached(w, steps);
    var st := After(w, Initial(w.g), steps);
    hide After, Run;
    if st.recs[x].topLevelCapability.Pending? {
      PendingWaits(w.g, st, x);
      hide Books, AsyncReachesTLA, Structure, Counted, StartedFree;
      var y := SomeBodyRuns(w.g, st.recs, x);
      assert false;
    }
  }

  lemma PendingWaits(g: Graph, st: State, x: Id)
    requires Resting(g, st) && x < |st.recs| && st.recs[x].topLevelCapability.Pending?
    ensures Waiting(st.recs, x) && Root(st.recs, x) == x && !Errored(st.recs, x)
  {
    hide Counted, StartedFree, AsyncReachesTLA, RootsOk, RequestsMet, EdgesUp, ErrorsUp, CycleParents, StartsInOrder;
    assert LoggedAt(g, st, None, x);
    assert RecordOk(g, x, st.recs[x], false);
  }

  /** A fulfilment's walk over ancestors never meets a module without a cycle root. */
  lemma AncestorWalkNeverFails(w: World, steps: seq<Step>, m: Id)
    requires w.g.Loaded() && Run(w, Initial(w.g), steps)
    requires var recs := After(w, Initial(w.g), steps).recs; m < |recs| && recs[m].body.Running?
    ensures !SettleOk(w, After(w, Initial(w.g), steps), m).crashed
  {
    Reached(w, steps);
    hide After, Run, Quiescent, Books, AsyncReachesTLA, SettleOk;
    SettleOkQuiescent(w, After(w, Initial(w.g), steps), m);
  }

  /** A cycle root is asynchronous exactly when some member of its cycle is. */
  lemma RootAsyncIffMember(w: World, steps: seq<Step>, z: Id)
    requires w.g.Loaded() && Run(w, Initial(w.g), steps)
    requires var recs := After(w, Initial(w.g), steps).recs; Rooted(recs, z) && Root(recs, z) == z
    ensures var recs := After(w, Initial(w.g), steps).recs;
      Async(recs, z) <==> exists x: Id :: Rooted(recs, x) && Root(recs, x) == z && Async(recs, x)
  {
    Reached(w, steps);
    var st := After(w, Initial(w.g), steps);
    hide After, Run;
    forall x: Id | Rooted(st.recs, x) && Root(st.recs, x) == z && Async(st.recs, x) ensures Async(st.recs, z) {
      AsyncReachesRoot(w.g, st, x);
    }
  }

  lemma AsyncReachesRoot(g: Graph, st: State, x: Id)
    requires Resting(g, st) && Rooted(st.recs, x) && Async(st.recs, x)
    ensures Async(st.recs, Root(st.recs, x))
  {
    var z := Root(st.recs, x);
    assert OrdersBelow(st.recs, st.asyncOrder) by { hide Quiescent, AsyncReachesTLA; }
    hide Books, Counted, StartedFree, AsyncReachesTLA;
    assert RecordOk(g, x, st.recs[x], false);
    hide Reach, RequestsMet, EdgesUp, ErrorsUp, CycleParents;
    assert RootOk(g, st.recs, x);
    assert RecordOk(g, z, st.recs[z], false);
    UnfinishedReachesRoot(g, st.recs, [], x, st.asyncOrder);
  }
}
