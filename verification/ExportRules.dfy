/** What a module's own entries say about its exports, one kind of entry at a time, and that
    resolution and the export list are the least answers that follow them. */
module ExportRules {
  import opened ModuleGraph
  import opened Reachability
  import opened Exports

  // ── The entries of a record ──────────────────────────────────────────────

  /** The `i`-th local export of `m` is the one that counts for the name `n`. */
  ghost predicate LocalEntry(g: Graph, m: Id, n: Name, i: nat) {
    && g.Cyclic(m) && i < |g.mods[m].locals| && g.mods[m].locals[i].name == n
    && forall j | 0 <= j < i :: g.mods[m].locals[j].name != n
  }

  /** `m` has no local export named `n`, and its `i`-th re-export is the one that counts. */
  ghost predicate ReExport(g: Graph, m: Id, n: Name, i: nat) {
    && g.Cyclic(m) && i < |g.mods[m].indirects| && g.mods[m].indirects[i].name == n
    && (forall j | 0 <= j < |g.mods[m].locals| :: g.mods[m].locals[j].name != n)
    && forall j | 0 <= j < i :: g.mods[m].indirects[j].name != n
  }

  /** `m` declares the name `n` itself: in a local export, a re-export, or its list of names. */
  ghost predicate Declares(g: Graph, m: Id, n: Name) {
    m < |g.mods| && match g.mods[m]
      case Synthetic(names) => n in names
      case SourceText(_, locals, indirects, _, _, _) =>
        (exists i :: 0 <= i < |locals| && locals[i].name == n) || exists i :: 0 <= i < |indirects| && indirects[i].name == n
  }

  // ── Resolution, entry by entry ───────────────────────────────────────────

  /** The rules of 16.2.1.6.3: what follows for `q` when `p` says what follows for the
      queries it is passed on to. */
  ghost predicate Follows(g: Graph, p: (Query, Binding) -> bool, q: Query, b: Binding) {
    q.m < |g.mods| && match g.mods[q.m]
      case Synthetic(names) => q.name in names && b == Binding(q.m, Named(q.name))
      case SourceText(_, locals, indirects, stars, _, _) =>
        || (exists i: nat :: LocalEntry(g, q.m, q.name, i) && b == Binding(q.m, Named(locals[i].local)))
        || (exists i: nat :: ReExport(g, q.m, q.name, i) && ByEntry(g, p, q.m, indirects[i], b))
        || (q.name != DEFAULT && !Declares(g, q.m, q.name)
            && exists i :: 0 <= i < |stars| && p(Query(g.Target(q.m, stars[i]), q.name), b))
  }

  /** `export * as n from`: the namespace; `export { a as n } from`: what `a` leads to there. */
  ghost predicate ByEntry(g: Graph, p: (Query, Binding) -> bool, m: Id, e: IndirectExport, b: Binding) {
    match e.importName
    case None => b == Binding(g.Target(m, e.req), Namespace)
    case Some(a) => p(Query(g.Target(m, e.req), a), b)
  }

  ghost function Leading(g: Graph): (Query, Binding) -> bool {
    (q: Query, b: Binding) => Leads(g, q, b)
  }

  /** The first entry with a name is the one a search finds. */
  lemma {:induction false} FirstLocalEntry(es: seq<LocalExport>, n: Name, i: nat)
    requires i < |es| && es[i].name == n && forall j | 0 <= j < i :: es[j].name != n
    ensures FirstLocal(es, n) == Some(es[i].local)
    decreases i
  {
    if i > 0 {
      assert es[0].name != n;
      FirstLocalEntry(es[1..], n, i - 1);
    }
  }

  lemma {:induction false} FirstReExport(es: seq<IndirectExport>, n: Name, i: nat)
    requires i < |es| && es[i].name == n && forall j | 0 <= j < i :: es[j].name != n
    ensures FirstIndirect(es, n) == Some(es[i])
    decreases i
  {
    if i > 0 {
      assert es[0].name != n;
      FirstReExport(es[1..], n, i - 1);
    }
  }

  lemma {:induction false} LocalFound(es: seq<LocalExport>, n: Name) returns (i: nat)
    requires FirstLocal(es, n).Some?
    ensures i < |es| && es[i].name == n && es[i].local == FirstLocal(es, n).value
    ensures forall j | 0 <= j < i :: es[j].name != n
  {
    if es[0].name == n {
      i := 0;
    } else {
      i := LocalFound(es[1..], n);
      forall j | 0 <= j < i + 1 ensures es[j].name != n { if j > 0 { assert es[1..][j - 1].name != n; } }
      i := i + 1;
    }
  }

  lemma {:induction false} ReExportFound(es: seq<IndirectExport>, n: Name) returns (i: nat)
    requires FirstIndirect(es, n).Some?
    ensures i < |es| && es[i].name == n && es[i] == FirstIndirect(es, n).value
    ensures forall j | 0 <= j < i :: es[j].name != n
  {
    if es[0].name == n {
      i := 0;
    } else {
      i := ReExportFound(es[1..], n);
      forall j | 0 <= j < i + 1 ensures es[j].name != n { if j > 0 { assert es[1..][j - 1].name != n; } }
      i := i + 1;
    }
  }

  /** One step of a resolution, for any answers of the queries it is passed on to. */
  ghost predicate Steps(g: Graph, p: (Query, Binding) -> bool, q: Query, b: Binding) {
    Terminal(g, q) == Some(b) || exists w :: w in Forwards(g, q) && p(w, b)
  }

  lemma StepsFollow(g: Graph, p: (Query, Binding) -> bool, q: Query, b: Binding)
    ensures Steps(g, p, q, b) <==> Follows(g, p, q, b)
  {
    if q.m < |g.mods| && g.mods[q.m].SourceText? {
      var mod := g.mods[q.m];
      if FirstLocal(mod.locals, q.name).Some? {
        LocalSteps(g, p, q, b);
      } else if FirstIndirect(mod.indirects, q.name).Some? {
        ReExportSteps(g, p, q, b);
      } else {
        StarSteps(g, p, q, b);
      }
    }
  }

  lemma LocalSteps(g: Graph, p: (Query, Binding) -> bool, q: Query, b: Binding)
    requires g.Cyclic(q.m) && FirstLocal(g.mods[q.m].locals, q.name).Some?
    ensures Steps(g, p, q, b) <==> Follows(g, p, q, b)
  {
    var locals := g.mods[q.m].locals;
    var i := LocalFound(locals, q.name);
    assert LocalEntry(g, q.m, q.name, i);
    assert forall j: nat | LocalEntry(g, q.m, q.name, j) :: j == i;
  }

  lemma ReExportSteps(g: Graph, p: (Query, Binding) -> bool, q: Query, b: Binding)
    requires
      && g.Cyclic(q.m)
      && FirstLocal(g.mods[q.m].locals, q.name).None?
      && FirstIndirect(g.mods[q.m].indirects, q.name).Some?
    ensures Steps(g, p, q, b) <==> Follows(g, p, q, b)
  {
    var mod := g.mods[q.m];
    FirstLocalIn(mod.locals, q.name);
    var i := ReExportFound(mod.indirects, q.name);
    var e := mod.indirects[i];
    assert ReExport(g, q.m, q.name, i);
    assert forall j: nat | ReExport(g, q.m, q.name, j) :: j == i;
    assert Follows(g, p, q, b) <==> ByEntry(g, p, q.m, e, b);
    if e.importName.Some? { assert Forwards(g, q) == [Query(g.Target(q.m, e.req), e.importName.value)]; }
  }

  lemma StarSteps(g: Graph, p: (Query, Binding) -> bool, q: Query, b: Binding)
    requires
      && g.Cyclic(q.m)
      && FirstLocal(g.mods[q.m].locals, q.name).None?
      && FirstIndirect(g.mods[q.m].indirects, q.name).None?
    ensures Steps(g, p, q, b) <==> Follows(g, p, q, b)
  {
    var mod := g.mods[q.m];
    FirstLocalIn(mod.locals, q.name);
    FirstIndirectIn(mod.indirects, q.name);
    assert !Declares(g, q.m, q.name);
    if q.name != DEFAULT {
      forall i | 0 <= i < |mod.stars| ensures Query(g.Target(q.m, mod.stars[i]), q.name) in Forwards(g, q) {
        assert Forwards(g, q)[i] == Query(g.Target(q.m, mod.stars[i]), q.name);
      }
    }
  }

  lemma LeadsSteps(g: Graph, q: Query, b: Binding)
    ensures Leads(g, q, b) <==> Steps(g, Leading(g), q, b)
  {
    if Leads(g, q, b) {
      var t :| Reach(Asks(g), q, t) && Terminal(g, t) == Some(b);
      if t != q {
        var w := ReachUnroll(Asks(g), q, t);
        assert w in Forwards(g, q) && Leading(g)(w, b);
      }
    }
    if Terminal(g, q) == Some(b) { ReachRefl(Asks(g), q); }
    if w :| w in Forwards(g, q) && Leading(g)(w, b) { LeadsStep(g, q, w, b); }
  }

  /** What a query leads to is exactly what the entries say. */
  lemma LeadsFollows(g: Graph, q: Query, b: Binding)
    ensures Leads(g, q, b) <==> Follows(g, Leading(g), q, b)
  {
    LeadsSteps(g, q, b);
    StepsFollow(g, Leading(g), q, b);
    hide *;
  }

  /** And nothing more: any answers that the entries keep contain it. */
  lemma LeadsLeast(g: Graph, p: (Query, Binding) -> bool, q: Query, b: Binding)
    requires forall k: Query, c: Binding :: Follows(g, p, k, c) ==> p(k, c)
    requires Leads(g, q, b)
    ensures p(q, b)
  {
    var t :| Reach(Asks(g), q, t) && Terminal(g, t) == Some(b);
    var path :| PathFrom(Asks(g), q, t, path);
    PathFollows(g, p, path, b);
  }

  lemma {:induction false} PathFollows(g: Graph, p: (Query, Binding) -> bool, path: seq<Query>, b: Binding)
    requires forall k: Query, c: Binding :: Follows(g, p, k, c) ==> p(k, c)
    requires IsPath(Asks(g), path) && Terminal(g, path[|path|-1]) == Some(b)
    ensures p(path[0], b)
    decreases |path|
  {
    hide Follows, Terminal, Forwards;
    if |path| > 1 {
      var rest := path[1..];
      forall i | 0 <= i < |rest| - 1
        ensures rest[i+1] in Asks(g)(rest[i])
      {
        assert path[(i+1)+1] in Asks(g)(path[i+1]);
      }
      assert path[0+1] in Asks(g)(path[0]);
      PathFollows(g, p, rest, b);
    }
    StepsFollow(g, p, path[0], b);
  }

  // ── Kind by kind ─────────────────────────────────────────────────────────

  /** `export { local as n }` ends at the local binding. */
  lemma LocalLeads(g: Graph, m: Id, n: Name, i: nat, b: Binding)
    requires LocalEntry(g, m, n, i)
    ensures Leads(g, Query(m, n), b) <==> b == Binding(m, Named(g.mods[m].locals[i].local))
  {
    LeadsFollows(g, Query(m, n), b);
    assert forall j: nat | LocalEntry(g, m, n, j) :: j == i;
    hide Leads;
  }

  /** `export { a as n } from` asks the other module for `a`. */
  lemma ReExportLeads(g: Graph, m: Id, n: Name, i: nat, a: Name, b: Binding)
    requires ReExport(g, m, n, i) && g.mods[m].indirects[i].importName == Some(a)
    ensures Leads(g, Query(m, n), b) <==> Leads(g, Query(g.Target(m, g.mods[m].indirects[i].req), a), b)
  {
    LeadsFollows(g, Query(m, n), b);
    assert forall j: nat | ReExport(g, m, n, j) :: j == i;
    hide Leads;
  }

  /** `export * as n from` ends at the other module's namespace. */
  lemma NamespaceLeads(g: Graph, m: Id, n: Name, i: nat, b: Binding)
    requires ReExport(g, m, n, i) && g.mods[m].indirects[i].importName.None?
    ensures Leads(g, Query(m, n), b) <==> b == Binding(g.Target(m, g.mods[m].indirects[i].req), Namespace)
  {
    LeadsFollows(g, Query(m, n), b);
    assert forall j: nat | ReExport(g, m, n, j) :: j == i;
    hide Leads;
  }

  /** A name the module does not declare is asked of every star export, except `default`. */
  lemma StarLeads(g: Graph, m: Id, n: Name, b: Binding)
    requires g.Cyclic(m) && !Declares(g, m, n)
    ensures Leads(g, Query(m, n), b) <==>
        n != DEFAULT && exists i :: 0 <= i < |g.mods[m].stars| && Leads(g, Query(g.Target(m, g.mods[m].stars[i]), n), b)
  {
    LeadsFollows(g, Query(m, n), b);
    hide Leads;
    assert forall q, c :: Leading(g)(q, c) == Leads(g, q, c);
  }

  /** A synthetic module ends at each of its names. */
  lemma SyntheticLeads(g: Graph, m: Id, n: Name, b: Binding)
    requires m < |g.mods| && g.mods[m].Synthetic?
    ensures Leads(g, Query(m, n), b) <==> n in g.mods[m].exportNames && b == Binding(m, Named(n))
  {
    LeadsFollows(g, Query(m, n), b);
    hide Leads;
  }

  // ── The export list, entry by entry ──────────────────────────────────────

  lemma DeclaresOwn(g: Graph, m: Id, n: Name)
    ensures Declares(g, m, n) <==> n in OwnNames(g, m)
  {
    if m < |g.mods| && g.mods[m].SourceText? {
      var mod := g.mods[m];
      OwnNamesAnswer(g, Query(m, n));
      FirstLocalIn(mod.locals, n);
      FirstIndirectIn(mod.indirects, n);
    }
  }

  /** A name is exported exactly when the module declares it, or it is not `default` and a
      module it star-exports exports it. */
  lemma ExportedByEntries(g: Graph, m: Id, n: Name)
    ensures Exported(g, m, n) <==>
      || Declares(g, m, n)
      || (n != DEFAULT && g.Cyclic(m) && exists i :: 0 <= i < |g.mods[m].stars| && Exported(g, g.Target(m, g.mods[m].stars[i]), n))
  {
    DeclaresOwn(g, m, n);
    if Exported(g, m, n) && n !in OwnNames(g, m) {
      var k :| Reach(StarEdges(g), m, k) && n in OwnNames(g, k);
      var z := ReachUnroll(StarEdges(g), m, k);
      var i :| 0 <= i < |StarTargets(g, m)| && StarTargets(g, m)[i] == z;
      assert Exported(g, g.Target(m, g.mods[m].stars[i]), n);
    }
    if g.Cyclic(m) && n != DEFAULT {
      forall i | 0 <= i < |g.mods[m].stars| && Exported(g, g.Target(m, g.mods[m].stars[i]), n)
        ensures Exported(g, m, n)
      {
        assert StarTargets(g, m)[i] == g.Target(m, g.mods[m].stars[i]);
        ExportedStep(g, m, StarTargets(g, m)[i], n);
      }
    }
  }

  /** And only for a reason: `p` contains the exported names if the entries keep it. */
  lemma ExportedLeast(g: Graph, p: (Id, Name) -> bool, m: Id, n: Name)
    requires forall k: Id, c: Name | Declares(g, k, c) :: p(k, c)
    requires forall k: Id, c: Name, i: nat | c != DEFAULT && g.Cyclic(k) && i < |g.mods[k].stars| && p(g.Target(k, g.mods[k].stars[i]), c) :: p(k, c)
    requires Exported(g, m, n)
    ensures p(m, n)
  {
    DeclaresOwn(g, m, n);
    if n !in OwnNames(g, m) {
      var k :| Reach(StarEdges(g), m, k) && n in OwnNames(g, k);
      var path :| PathFrom(StarEdges(g), m, k, path);
      DeclaresOwn(g, k, n);
      StarPathListed(g, p, path, n);
    }
  }

  lemma {:induction false} StarPathListed(g: Graph, p: (Id, Name) -> bool, path: seq<Id>, n: Name)
    requires forall k: Id, c: Name, i: nat | c != DEFAULT && g.Cyclic(k) && i < |g.mods[k].stars| && p(g.Target(k, g.mods[k].stars[i]), c) :: p(k, c)
    requires IsPath(StarEdges(g), path) && p(path[|path|-1], n) && n != DEFAULT
    ensures p(path[0], n)
    decreases |path|
  {
    if |path| > 1 {
      var rest := path[1..];
      forall i | 0 <= i < |rest| - 1
        ensures rest[i+1] in StarEdges(g)(rest[i])
      {
        assert path[(i+1)+1] in StarEdges(g)(path[i+1]);
      }
      assert path[0+1] in StarEdges(g)(path[0]);
      StarPathListed(g, p, rest, n);
      var i :| 0 <= i < |StarTargets(g, path[0])| && StarTargets(g, path[0])[i] == path[1];
      assert p(g.Target(path[0], g.mods[path[0]].stars[i]), n);
    }
  }
}
