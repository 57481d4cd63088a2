/** Each module has an environment of its own: what one module writes, no import from another
    module reads. */
module Environments {
  import opened ModuleGraph
  import opened Exports
  import opened Records
  import opened Evaluation
  import opened Moves
  import opened Runs
  import opened BodyEntry
  import opened Slots
  import opened Reachability
  import AsyncState
  import Blame
  import EvaluateCall

  // ── A step keeps environments apart ──────────────────────────────────────

  lemma SameApart(g: Graph, st: State, st1: State)
    requires EnvironmentsApart(g, st) && SameBodies(g, st, st1)
    ensures EnvironmentsApart(g, st1)
  {
    forall x: Id | HasEnvironment(g, st1, x)
      ensures HasEnvironment(g, st, x) && st1.recs[x].getters == st.recs[x].getters
    {
      assert SameBody(st.recs[x], st1.recs[x]);
    }
    hide SameBodies;
  }

  lemma BeginApart(g: Graph, st: State, x: Id, body: Body)
    requires EnvironmentsApart(g, st) && x < |st.recs|
    ensures EnvironmentsApart(g, Begin(st, x, body))
  {
    var st1 := Begin(st, x, body);
    assert forall y: Id | HasEnvironment(g, st1, y) ::
        if st1.recs[y].getters == st.recs[y].getters then HasEnvironment(g, st, y) else y == x && st1.recs[y].getters == Some(st.envs);
    hide Begin;
  }

  lemma EntersApart(g: Graph, st: State, s: State)
    requires EnvironmentsApart(g, st) && Enters(g, st, s)
    ensures EnvironmentsApart(g, s)
  {
    var st1: State, x: Id, body: Body :| SameBodies(g, st, st1) && MayEnterBody(g, st1, x) && !body.Unstarted? && s == Begin(st1, x, body);
    assert x < |st1.recs|;
    hide SameBodies, MayEnterBody, EnvironmentsApart, Begin;
    SameApart(g, st, st1);
    BeginApart(g, st1, x, body);
  }

  lemma {:induction false} ChainedApart(g: Graph, st: State, entered: seq<State>, st1: State)
    requires EnvironmentsApart(g, st) && Chained(g, st, entered, st1)
    ensures EnvironmentsApart(g, st1)
    ensures forall i | 0 <= i < |entered| :: EnvironmentsApart(g, entered[i])
    decreases |entered|
  {
    hide SameBodies, Enters, EnvironmentsApart;
    if entered == [] {
      SameApart(g, st, st1);
    } else {
      EntersApart(g, st, entered[0]);
      ChainedApart(g, entered[0], entered[1..], st1);
      forall i | 0 <= i < |entered| ensures EnvironmentsApart(g, entered[i]) {
        if i > 0 { assert entered[i] == entered[1..][i - 1]; }
      }
    }
  }

  lemma NextApart(w: World, st: State, step: Step)
    requires w.g.Loaded() && Ready(w.g, st) && May(w, st, step) && EnvironmentsApart(w.g, st)
    ensures EnvironmentsApart(w.g, Next(w, st, step))
    ensures forall i | 0 <= i < |StepEntries(w, st, step)| :: EnvironmentsApart(w.g, StepEntries(w, st, step)[i])
  {
    hide Ready, EnvironmentsApart;
    match step
    case Links(after) =>
      hide PreparedAt, NewEnvironments, LinkedOk;
      NewStaysApart(w.g, st, after);
    case _ =>
      hide May, Next, Chained, StepEntries;
      StepChained(w, st, step);
      ChainedApart(w.g, st, StepEntries(w, st, step), Next(w, st, step));
  }

  lemma {:induction false} RunApart(w: World, st: State, steps: seq<Step>)
    requires w.g.Loaded() && Ready(w.g, st) && Run(w, st, steps) && EnvironmentsApart(w.g, st)
    ensures EnvironmentsApart(w.g, After(w, st, steps))
    decreases |steps|
  {
    hide Ready, May, Next, EnvironmentsApart;
    if steps != [] {
      NextReady(w, st, steps[0]);
      NextApart(w, st, steps[0]);
      RunApart(w, Next(w, st, steps[0]), steps[1..]);
    }
  }

  /** In every run, whenever the loader is observed, two modules that have environments have
      different ones, whether linking made them or the entry of a body did. */
  lemma OwnEnvironments(w: World, steps: seq<Step>, s: State, x: Id, z: Id)
    requires w.g.Loaded() && Run(w, Initial(w.g), steps) && Observed(w, After(w, Initial(w.g), steps), s)
    requires HasEnvironment(w.g, s, x) && HasEnvironment(w.g, s, z) && x != z
    ensures s.recs[x].getters.value != s.recs[z].getters.value
    ensures s.recs[x].getters.value < s.envs
  {
    var st := After(w, Initial(w.g), steps);
    InitialReady(w.g);
    InitialApart(w.g);
    Reached(w, steps);
    hide Ready, EvaluateCall.Resting, Run, After, EnvironmentsApart;
    RunApart(w, Initial(w.g), steps);
    ObservedApart(w, st, s);
    ApartAt(w.g, s, x, z);
  }

  lemma InitialApart(g: Graph)
    ensures EnvironmentsApart(g, Initial(g))
  {
  }

  lemma ApartAt(g: Graph, s: State, x: Id, z: Id)
    requires EnvironmentsApart(g, s) && HasEnvironment(g, s, x) && HasEnvironment(g, s, z) && x != z
    ensures s.recs[x].getters.value != s.recs[z].getters.value && s.recs[x].getters.value < s.envs
  {
  }

  lemma ObservedApart(w: World, st: State, s: State)
    requires w.g.Loaded() && Ready(w.g, st) && Observed(w, st, s) && EnvironmentsApart(w.g, st)
    ensures EnvironmentsApart(w.g, s)
  {
    hide Ready, May, EnvironmentsApart, StepEntries, Next;
    if s != st {
      var step: Step :| May(w, st, step) && s in StepEntries(w, st, step);
      NextApart(w, st, step);
    }
  }

  // ── What a write is seen by ──────────────────────────────────────────────

  /** The heap after the code of an environment has given its binding `name` the value `v`. */
  function Write(h: Heap, env: Env, name: Name, v: int): Heap {
    h.(bindings := h.bindings[(env, name) := v])
  }

  /** A slot that reads the binding of a module sees that module's writes to it, and no other. */
  lemma SlotSeesWrite(g: Graph, s: State, slot: Slot, m: Id, name: Name, z: Id, other: Name, v: int, h: Heap)
    requires EnvironmentsApart(g, s) && HasEnvironment(g, s, z) && SlotFor(g, s.recs, slot, m, name)
    requires g.Cyclic(m) ==> Registers(g, m, name)
    ensures ReadSlot(g, s.recs, Write(h, s.recs[z].getters.value, other, v), slot).0
      == if z == m && other == name then Value(v) else ReadSlot(g, s.recs, h, slot).0
  {
    var h1 := Write(h, s.recs[z].getters.value, other, v);
    SlotRefinesReader(g, s.recs, h, slot, m, name);
    SlotRefinesReader(g, s.recs, h1, slot, m, name);
    hide ReadSlot, SlotFor, Registers;
    if g.Cyclic(m) && HasEnvironment(g, s, m) && z != m { ApartAt(g, s, z, m); }
    hide EnvironmentsApart;
  }

  /** Imports are live and kept apart: in every run, whatever the slot of an import holds by
      now, a read gives the new value after the exporting module has written the binding, and
      what it gave before after any other write, also by another module that has a binding of
      the same name. */
  lemma ImportSeesOwnWrites(w: World, steps: seq<Step>, s: State, m: Id, i: nat, b: Binding, slot: Slot, z: Id,
                            other: Name, v: int, h: Heap)
    requires w.g.Loaded() && Run(w, Initial(w.g), steps) && Observed(w, After(w, Initial(w.g), steps), s)
    requires ImportReads(w.g, After(w, Initial(w.g), steps).recs, m, i, b) && b.name.Named?
    requires SlotFor(w.g, s.recs, slot, b.target, b.name.name) && HasEnvironment(w.g, s, z)
    ensures ReadSlot(w.g, s.recs, Write(h, s.recs[z].getters.value, other, v), slot).0
      == if z == b.target && other == b.name.name then Value(v) else ReadSlot(w.g, s.recs, h, slot).0
  {
    var st := After(w, Initial(w.g), steps);
    InitialReady(w.g);
    InitialApart(w.g);
    Reached(w, steps);
    TargetCompiled(w.g, st, m, i, b);
    hide Ready, EvaluateCall.Resting, Run, After, EnvironmentsApart, ImportReads, SlotFor, ReadSlot, Registers;
    RunApart(w, Initial(w.g), steps);
    ObservedApart(w, st, s);
    SlotSeesWrite(w.g, s, slot, b.target, b.name.name, z, other, v, h);
  }

  // ── Imports from synthetic modules ───────────────────────────────────────

  /** Only source text modules have promises that may be rejected. */
  lemma {:induction false} RejectsSourceText(w: World, st: State, steps: seq<Step>, k: nat)
    requires w.g.Loaded() && Ready(w.g, st) && Run(w, st, steps) && k < |steps| && steps[k].Rejects?
    ensures w.g.Cyclic(steps[k].m)
    decreases k
  {
    if k == 0 {
      assert steps[0].m < |st.recs| && st.recs[steps[0].m].body.Running? by { hide Ready; }
      RestingRecords(w.g, st);
      hide Ready, Run, EvaluateCall.Resting;
      assert AsyncState.RecordOk(w.g, steps[0].m, st.recs[steps[0].m], false);
    } else {
      hide Ready, May, Next;
      NextReady(w, st, steps[0]);
      RejectsSourceText(w, Next(w, st, steps[0]), steps[1..], k - 1);
    }
  }

  lemma SyntheticErrors(w: World, steps: seq<Step>, z: Id)
    requires w.g.Loaded() && Run(w, Initial(w.g), steps) && z < |After(w, Initial(w.g), steps).recs| && !w.g.Cyclic(z)
    ensures After(w, Initial(w.g), steps).recs[z].hasError ==> z in w.fails
  {
    var st := After(w, Initial(w.g), steps);
    Blame.ErrorsHaveCauses(w, steps, z);
    InitialReady(w.g);
    hide Run, After, Ready, EvaluateCall.Resting;
    if st.recs[z].hasError {
      var y: Id :| Reach(Imports(w.g), z, y) &&
        (Rejects(y, st.recs[z].error) in steps || (Blame.Faulty(w, y) && w.fails[y] == st.recs[z].error && Began(y) in st.log));
      assert Imports(w.g)(z) == [];
      ReachFromSink(Imports(w.g), z, y);
      if Rejects(y, st.recs[z].error) in steps {
        var k: nat :| k < |steps| && steps[k] == Rejects(y, st.recs[z].error);
        RejectsSourceText(w, Initial(w.g), steps, k);
      }
    }
  }

  /** In every run, between steps, a binding of a synthetic module reads as the module's value
      once it has been evaluated without an error, and as `undefined` before and otherwise. */
  lemma SyntheticImport(w: World, steps: seq<Step>, z: Id, name: Name, h: Heap)
    requires w.g.Loaded() && Run(w, Initial(w.g), steps) && z < |After(w, Initial(w.g), steps).recs| && !w.g.Cyclic(z)
    ensures ReadBinding(w.g, After(w, Initial(w.g), steps).recs, h, z, name)
      == if Began(z) in After(w, Initial(w.g), steps).log && z !in w.fails && (z, name) in h.values then Value(h.values[(z, name)])
         else Undefined
  {
    var st := After(w, Initial(w.g), steps);
    Reached(w, steps);
    SyntheticErrors(w, steps, z);
    if Began(z) in st.log && z in w.fails { Blame.ThrownIsRecorded(w, steps, z); }
    hide Run, After;
    Blame.RanIsLogged(w.g, st, z);
    RestingRecords(w.g, st);
    hide Ready, EvaluateCall.Resting;
    assert AsyncState.RecordOk(w.g, z, st.recs[z], false);
  }
}
