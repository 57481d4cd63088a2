/** What the import slots of a linked record stand for, told from the entries of the modules
    that the imports lead through. */
module ImportSlots {
  import opened ModuleGraph
  import opened Reachability
  import opened Exports
  import opened ExportRules
  import opened Records
  import opened Linker

  /** `m` is linked, and `e` is its `i`-th import. */
  ghost predicate Linked(g: Graph, recs: seq<Rec>, m: Id, i: nat, e: ImportEntry) {
    && LinkQuiet(g, recs) && m < |recs| && g.Cyclic(m) && Past(recs[m].status)
    && i < |g.mods[m].imports| && g.mods[m].imports[i] == e
  }

  /** The query `export * as t.name from` ends, at the namespace of `z`. */
  ghost predicate EndsAtNamespace(g: Graph, t: Query, z: Id) {
    exists j: nat :: ReExport(g, t.m, t.name, j) && g.mods[t.m].indirects[j].importName.None?
      && g.Target(t.m, g.mods[t.m].indirects[j].req) == z
  }

  /** The query a local export ends, or the name of a synthetic module. */
  ghost predicate EndsAtBinding(g: Graph, t: Query, b: Binding) {
    t.m < |g.mods| && match g.mods[t.m]
      case Synthetic(names) => t.name in names && b == Binding(t.m, Named(t.name))
      case SourceText(_, locals, _, _, _, _) =>
        exists j: nat :: LocalEntry(g, t.m, t.name, j) && b == Binding(t.m, Named(locals[j].local))
  }

  lemma TerminalEntries(g: Graph, t: Query, b: Binding)
    ensures Terminal(g, t) == Some(b)
      <==> if b.name.Namespace? then EndsAtNamespace(g, t, b.target) else EndsAtBinding(g, t, b)
  {
    if t.m < |g.mods| && g.mods[t.m].SourceText? {
      var mod := g.mods[t.m];
      FirstLocalIn(mod.locals, t.name);
      if FirstLocal(mod.locals, t.name).Some? {
        var j := LocalFound(mod.locals, t.name);
        assert LocalEntry(g, t.m, t.name, j);
        assert forall k: nat | LocalEntry(g, t.m, t.name, k) :: k == j;
      } else if FirstIndirect(mod.indirects, t.name).Some? {
        var j := ReExportFound(mod.indirects, t.name);
        assert ReExport(g, t.m, t.name, j);
        assert forall k: nat | ReExport(g, t.m, t.name, k) :: k == j;
      } else {
        FirstIndirectIn(mod.indirects, t.name);
      }
    }
  }

  lemma SlotMeaning(g: Graph, recs: seq<Rec>, m: Id, i: nat, e: ImportEntry)
    requires Linked(g, recs, m, i, e)
    ensures i < |recs[m].imp| && ImportResolves(g, m, e) && recs[m].imp[i] == SlotOf(g, m, e)
  {
    hide Meaning, Reach, OnCycle, Closed, LoadsSucceeded;
    assert StaysInstantiated(g, m, recs[m]);
  }

  /** Some binding the import leads to is the one its slot was made for. */
  lemma SlotOfEnd(g: Graph, recs: seq<Rec>, m: Id, i: nat, e: ImportEntry, t: Query, b: Binding)
    requires Linked(g, recs, m, i, e) && e.name.Some?
    requires Reach(Asks(g), Query(g.Target(m, e.req), e.name.value), t) && Terminal(g, t) == Some(b)
    ensures i < |recs[m].imp|
    ensures recs[m].imp[i] == if b.name.Namespace? then NamespaceOf(b.target) else BindingOf(b)
  {
    SlotMeaning(g, recs, m, i, e);
    var q := Query(g.Target(m, e.req), e.name.value);
    hide Linked, Reach;
    assert Leads(g, q, b);
    assert Resolves(g, q, Meaning(g, q));
    hide Meaning, Leads;
  }

  lemma SlotEnd(g: Graph, recs: seq<Rec>, m: Id, i: nat, e: ImportEntry) returns (t: Query, b: Binding)
    requires Linked(g, recs, m, i, e) && e.name.Some?
    ensures Reach(Asks(g), Query(g.Target(m, e.req), e.name.value), t) && Terminal(g, t) == Some(b)
    ensures i < |recs[m].imp|
    ensures recs[m].imp[i] == if b.name.Namespace? then NamespaceOf(b.target) else BindingOf(b)
  {
    SlotMeaning(g, recs, m, i, e);
    var q := Query(g.Target(m, e.req), e.name.value);
    hide Linked, Reach;
    b := Meaning(g, q).binding;
    assert Resolves(g, q, Meaning(g, q));
    hide Meaning;
    t :| Reach(Asks(g), q, t) && Terminal(g, t) == Some(b);
  }

  /** `import * as local from`: the namespace of the module asked for. */
  lemma StarImportSlot(g: Graph, recs: seq<Rec>, m: Id, i: nat, e: ImportEntry)
    requires Linked(g, recs, m, i, e) && e.name.None?
    ensures i < |recs[m].imp| && recs[m].imp[i] == NamespaceOf(g.Target(m, e.req))
  {
    SlotMeaning(g, recs, m, i, e);
    hide Linked;
  }

  /** The slot of a named import is the namespace of `z` exactly when the name leads, through
      however many re-exports, to an entry `export * as ... from` that requests `z`. */
  lemma NamespaceSlot(g: Graph, recs: seq<Rec>, m: Id, i: nat, e: ImportEntry, z: Id)
    requires Linked(g, recs, m, i, e) && e.name.Some?
    ensures i < |recs[m].imp|
    ensures recs[m].imp[i] == NamespaceOf(z)
      <==> exists t: Query :: Reach(Asks(g), Query(g.Target(m, e.req), e.name.value), t) && EndsAtNamespace(g, t, z)
  {
    hide Linked, Reach, EndsAtNamespace, EndsAtBinding, Terminal, Asks;
    var q := Query(g.Target(m, e.req), e.name.value);
    var t, b := SlotEnd(g, recs, m, i, e);
    TerminalEntries(g, t, b);
    if u: Query :| Reach(Asks(g), q, u) && EndsAtNamespace(g, u, z) {
      TerminalEntries(g, u, Binding(z, Namespace));
      SlotOfEnd(g, recs, m, i, e, u, Binding(z, Namespace));
    }
  }

  /** And it is the binding `b` exactly when the name leads to a local export, or to a name of
      a synthetic module, with that binding. */
  lemma BindingSlot(g: Graph, recs: seq<Rec>, m: Id, i: nat, e: ImportEntry, b: Binding)
    requires Linked(g, recs, m, i, e) && e.name.Some?
    ensures i < |recs[m].imp|
    ensures recs[m].imp[i] == BindingOf(b)
      <==> exists t: Query :: Reach(Asks(g), Query(g.Target(m, e.req), e.name.value), t) && EndsAtBinding(g, t, b)
  {
    hide Linked, Reach, EndsAtNamespace, Terminal, Asks;
    var q := Query(g.Target(m, e.req), e.name.value);
    var t, c := SlotEnd(g, recs, m, i, e);
    TerminalEntries(g, t, c);
    if u: Query :| Reach(Asks(g), q, u) && EndsAtBinding(g, u, b) {
      assert b.name.Named?;
      hide EndsAtBinding;
      TerminalEntries(g, u, b);
      SlotOfEnd(g, recs, m, i, e, u, b);
    }
  }
}
