/** Module records: what linking and evaluation change, field by field. */
module Records {
  import opened ModuleGraph
  import Exports

  type Error = int

  /** Each run of a module's prologue makes a fresh module environment; its getters
      read the bindings of that environment. */
  type Env = nat

  datatype Status = New | Unlinked | Linking | Linked | Evaluating | EvaluatingAsync | Evaluated

  datatype Capability = NoCapability | Pending | Resolved | Rejected(error: Error)

  /** How the body was compiled: as a function run once, or as a generator whose
      prologue runs at link time. */
  datatype Code = NotCompiled | Plain | Generator

  /** The body itself, as the engine sees it: not entered, suspended on a promise
      it returned, or over. A synthetic record's one evaluation counts as its body. */
  datatype Body = Unstarted | Running | Over

  /** Where an import slot reads from. */
  datatype ImportSlot = NamespaceOf(m: Id) | BindingOf(binding: Exports.Binding)

  datatype Rec = Rec(
    status: Status,
    hasError: bool,
    error: Error,
    dfsIndex: int,
    dfsAncestorIndex: int,
    cycleRoot: Option<Id>,
    asyncEvaluation: bool,
    asyncEvaluationOrder: nat,
    topLevelCapability: Capability,
    asyncParentModules: seq<Id>,
    pendingAsyncDependencies: int,
    imp: seq<ImportSlot>,
    code: Code,
    getters: Option<Env>,
    body: Body)

  class ModuleRecord {
    var status: Status
    var hasError: bool
    var error: Error
    var dfsIndex: int
    var dfsAncestorIndex: int
    var cycleRoot: Option<Id>
    var asyncEvaluation: bool
    var asyncEvaluationOrder: nat
    var topLevelCapability: Capability
    var asyncParentModules: seq<Id>
    var pendingAsyncDependencies: int
    var imp: seq<ImportSlot>
    var code: Code
    var getters: Option<Env>
    var body: Body

    constructor ()
      ensures Value() == Fresh()
    {
      status := New;
      hasError := false;
      error := 0;
      dfsIndex := -1;
      dfsAncestorIndex := -1;
      cycleRoot := None;
      asyncEvaluation := false;
      asyncEvaluationOrder := 0;
      topLevelCapability := NoCapability;
      asyncParentModules := [];
      pendingAsyncDependencies := 0;
      imp := [];
      code := NotCompiled;
      getters := None;
      body := Unstarted;
    }

    /** All fields at once, as a value. */
    function Value(): Rec
      reads this
    {
      Rec(status, hasError, error, dfsIndex, dfsAncestorIndex, cycleRoot, asyncEvaluation, asyncEvaluationOrder,
          topLevelCapability, asyncParentModules, pendingAsyncDependencies, imp, code, getters, body)
    }
  }

  function Fresh(): Rec {
    Rec(New, false, 0, -1, -1, None, false, 0, NoCapability, [], 0, [], NotCompiled, None, Unstarted)
  }

  /** What the host can observe of an evaluation, in order: a body is entered, a
      module completes, a capability is settled. */
  datatype Event =
    | Began(m: Id)
    | Completed(m: Id)
    | CapabilityResolved(m: Id)
    | CapabilityRejected(m: Id)

  datatype State = State(recs: seq<Rec>, asyncOrder: nat, envs: nat, log: seq<Event>)

  // ── Environments ─────────────────────────────────────────────────────────

  predicate HasEnvironment(g: Graph, st: State, x: Id) {
    g.Cyclic(x) && x < |st.recs| && st.recs[x].getters.Some?
  }

  /** No two modules have one environment, and each was made before now. */
  ghost predicate EnvironmentsApart(g: Graph, st: State) {
    && (forall x: Id | HasEnvironment(g, st, x) :: st.recs[x].getters.value < st.envs)
    && forall x: Id, z: Id | HasEnvironment(g, st, x) && HasEnvironment(g, st, z) && x != z ::
         st.recs[x].getters.value != st.recs[z].getters.value
  }

  /** The environments that modules get on the way from `st` to `st1` are made there, one each. */
  ghost predicate NewEnvironments(st: State, st1: State) {
    && |st.recs| == |st1.recs| && st.envs <= st1.envs
    && (forall x: Id | x < |st.recs| && st1.recs[x].getters != st.recs[x].getters ::
          st1.recs[x].getters.Some? && st.envs <= st1.recs[x].getters.value < st1.envs)
    && forall x: Id, z: Id | x < z < |st.recs| && st1.recs[x].getters != st.recs[x].getters && st1.recs[z].getters != st.recs[z].getters ::
         st1.recs[x].getters != st1.recs[z].getters
  }

  lemma NewStaysApart(g: Graph, st: State, st1: State)
    requires EnvironmentsApart(g, st) && NewEnvironments(st, st1)
    ensures EnvironmentsApart(g, st1)
  {
    forall x: Id, z: Id | HasEnvironment(g, st1, x) && HasEnvironment(g, st1, z) && x < z
      ensures st1.recs[x].getters.value != st1.recs[z].getters.value
    {
      assert st1.recs[x].getters == st.recs[x].getters ==> HasEnvironment(g, st, x);
      assert st1.recs[z].getters == st.recs[z].getters ==> HasEnvironment(g, st, z);
    }
  }

  lemma NewTrans(st: State, st1: State, st2: State)
    requires NewEnvironments(st, st1) && NewEnvironments(st1, st2)
    ensures NewEnvironments(st, st2)
  {
    forall x: Id, z: Id | x < z < |st.recs| && st2.recs[x].getters != st.recs[x].getters && st2.recs[z].getters != st.recs[z].getters
      ensures st2.recs[x].getters != st2.recs[z].getters
    {
      assert st2.recs[x].getters == st1.recs[x].getters || st2.recs[z].getters == st1.recs[z].getters
        || st2.recs[x].getters != st2.recs[z].getters;
    }
  }

  /** Nothing that has to do with environments changes. */
  lemma NewNone(st: State, st1: State)
    requires |st.recs| == |st1.recs| && st.envs == st1.envs
    requires forall x: Id | x < |st.recs| :: st1.recs[x].getters == st.recs[x].getters
    ensures NewEnvironments(st, st1)
  {
  }

  /** The loader's state: the records by identifier, the counter behind
      [[AsyncEvaluationOrder]], and the environments made so far. The ghost field
      follows the records as one value, together with the log of events. */
  class Registry {
    const g: Graph
    const records: seq<ModuleRecord>
    var asyncOrder: nat
    var envs: nat
    ghost var st: State

    /** The heap is what the ghost state says it is. */
    ghost predicate Valid()
      reads this, records
      ensures Valid() ==> |records| == |g.mods| == |st.recs| && g.Loaded()
    {
      && |records| == |g.mods| == |st.recs|
      && g.Loaded()
      && (forall i, j | 0 <= i < j < |records| :: records[i] != records[j])
      && (forall i | 0 <= i < |records| :: records[i].Value() == st.recs[i])
      && asyncOrder == st.asyncOrder && envs == st.envs
    }

    constructor (g: Graph)
      requires g.Loaded()
      ensures Valid() && fresh(records)
      ensures this.g == g && st == State(seq(|g.mods|, _ => Fresh()), 0, 0, [])
    {
      var rs: seq<ModuleRecord> := [];
      while |rs| < |g.mods|
        invariant |rs| <= |g.mods| && fresh(rs)
        invariant forall i, j | 0 <= i < j < |rs| :: rs[i] != rs[j]
        invariant forall i | 0 <= i < |rs| :: rs[i].Value() == Fresh()
      {
        var r := new ModuleRecord();
        rs := rs + [r];
      }
      this.g := g;
      records := rs;
      asyncOrder := 0;
      envs := 0;
      st := State(seq(|g.mods|, _ => Fresh()), 0, 0, []);
    }

    /** The ghost state after one record is replaced. */
    ghost function With(m: Id, r: Rec): State
      reads this
      requires m < |st.recs|
    {
      st.(recs := st.recs[m := r])
    }

    // Reading and assigning the fields of one record.

    method StatusOf(m: Id) returns (s: Status)
      requires Valid() && m < |records|
      ensures s == st.recs[m].status
    {
      s := records[m].status;
    }

    method AncestorIndexOf(m: Id) returns (v: int)
      requires Valid() && m < |records|
      ensures v == st.recs[m].dfsAncestorIndex
    {
      v := records[m].dfsAncestorIndex;
    }

    method EnterLinking(m: Id, index: int)
      requires Valid() && m < |records|
      modifies this`st, records[m]
      ensures Valid()
      ensures st == old(With(m, st.recs[m].(status := Linking, dfsIndex := index, dfsAncestorIndex := index)))
    {
      var r := records[m];
      r.status, r.dfsIndex, r.dfsAncestorIndex := Linking, index, index;
      st := With(m, st.recs[m].(status := Linking, dfsIndex := index, dfsAncestorIndex := index));
    }

    method SetStatus(m: Id, s: Status)
      requires Valid() && m < |records|
      modifies this`st, records[m]
      ensures Valid()
      ensures st == old(With(m, st.recs[m].(status := s)))
    {
      records[m].status := s;
      st := With(m, st.recs[m].(status := s));
    }

    method SetAncestorIndex(m: Id, v: int)
      requires Valid() && m < |records|
      modifies this`st, records[m]
      ensures Valid()
      ensures st == old(With(m, st.recs[m].(dfsAncestorIndex := v)))
    {
      records[m].dfsAncestorIndex := v;
      st := With(m, st.recs[m].(dfsAncestorIndex := v));
    }

    method SetImp(m: Id, imp: seq<ImportSlot>)
      requires Valid() && m < |records|
      modifies this`st, records[m]
      ensures Valid()
      ensures st == old(With(m, st.recs[m].(imp := imp)))
    {
      records[m].imp := imp;
      st := With(m, st.recs[m].(imp := imp));
    }

    /** Compile `m`; a member of an import cycle runs its prologue at once, which
        makes its environment and registers the getters. */
    method Compile(m: Id, cyclic: bool)
      requires Valid() && m < |records|
      modifies this`st, this`envs, records[m]
      ensures Valid()
      ensures st == if cyclic
        then old(With(m, st.recs[m].(code := Generator, getters := Some(st.envs)))).(envs := old(st.envs) + 1)
        else old(With(m, st.recs[m].(code := Plain)))
    {
      var r := records[m];
      r.code := if cyclic then Generator else Plain;
      if cyclic {
        r.getters := Some(envs);
        envs := envs + 1;
        st := With(m, st.recs[m].(code := Generator, getters := Some(st.envs))).(envs := st.envs + 1);
      } else {
        st := With(m, st.recs[m].(code := Plain));
      }
    }
  }
}
