/** Export resolution over (module, name) pairs, and the names a namespace has. */
module Exports {
  import opened ModuleGraph
  import opened Reachability

  datatype BindingName = Named(name: Name) | Namespace
  datatype Binding = Binding(target: Id, name: BindingName)
  datatype Resolution = NotFound | Ambiguous | Found(binding: Binding)

  /** The question "what does module `m` export under `name`?" */
  datatype Query = Query(m: Id, name: Name)

  // ── What the walks look at, one record at a time ─────────────────────────

  function FirstLocal(es: seq<LocalExport>, n: Name): Option<Name> {
    if es == [] then None
    else if es[0].name == n then Some(es[0].local)
    else FirstLocal(es[1..], n)
  }

  function FirstIndirect(es: seq<IndirectExport>, n: Name): Option<IndirectExport> {
    if es == [] then None
    else if es[0].name == n then Some(es[0])
    else FirstIndirect(es[1..], n)
  }

  /** The binding a query ends at without asking another module. */
  function Terminal(g: Graph, q: Query): Option<Binding> {
    if q.m >= |g.mods| then None
    else match g.mods[q.m]
      case Synthetic(names) => if q.name in names then Some(Binding(q.m, Named(q.name))) else None
      case SourceText(_, locals, indirects, _, _, _) =>
        var local := FirstLocal(locals, q.name);
        if local.Some? then Some(Binding(q.m, Named(local.value)))
        else
          var ind := FirstIndirect(indirects, q.name);
          if ind.Some? && ind.value.importName.None? then Some(Binding(g.Target(q.m, ind.value.req), Namespace))
          else None
  }

  /** The queries a query is passed on to: a re-export by name, or every star export. */
  function Forwards(g: Graph, q: Query): seq<Query> {
    if !g.Cyclic(q.m) then []
    else
      var mod := g.mods[q.m];
      if FirstLocal(mod.locals, q.name).Some? then []
      else
        var ind := FirstIndirect(mod.indirects, q.name);
        if ind.Some? then
          if ind.value.importName.None? then []
          else [Query(g.Target(q.m, ind.value.req), ind.value.importName.value)]
        else if q.name == DEFAULT then []
        else seq(|mod.stars|, i requires 0 <= i < |mod.stars| => Query(g.Target(q.m, mod.stars[i]), q.name))
  }

  ghost function Asks(g: Graph): Query -> seq<Query> {
    (q: Query) => Forwards(g, q)
  }

  // ── The declarative meaning of a resolution ──────────────────────────────

  /** Some query reachable from `q` ends at `b`. */
  ghost predicate Leads(g: Graph, q: Query, b: Binding) {
    exists t :: Reach(Asks(g), q, t) && Terminal(g, t) == Some(b)
  }

  /** Nothing reachable, exactly one binding reachable, or at least two. */
  ghost predicate Resolves(g: Graph, q: Query, r: Resolution) {
    match r
    case NotFound => forall b :: !Leads(g, q, b)
    case Found(b) => Leads(g, q, b) && forall c :: Leads(g, q, c) ==> c == b
    case Ambiguous => exists b, c :: b != c && Leads(g, q, b) && Leads(g, q, c)
  }

  ghost function Meaning(g: Graph, q: Query): (r: Resolution)
    ensures Resolves(g, q, r)
  {
    if b, c :| b != c && Leads(g, q, b) && Leads(g, q, c) then Ambiguous
    else if b :| Leads(g, q, b) then Found(b)
    else NotFound
  }

  /** The three answers exclude each other, so a query has one meaning. */
  lemma MeaningUnique(g: Graph, q: Query, r: Resolution)
    requires Resolves(g, q, r)
    ensures r == Meaning(g, q)
  {
  }

  // ── A finite set of queries closed under forwarding ──────────────────────

  ghost function ImportedNames(g: Graph): set<Name> {
    set m: Id, i: nat | m < |g.mods| && g.mods[m].SourceText? && i < |g.mods[m].indirects|
                        && g.mods[m].indirects[i].importName.Some? :: g.mods[m].indirects[i].importName.value
  }

  ghost function Universe(g: Graph, n: Name): set<Query> {
    set m: Id, k: Name | m <= |g.mods| && k in ImportedNames(g) + {n} :: Query(m, k)
  }

  lemma {:induction false} FirstIndirectIn(es: seq<IndirectExport>, n: Name)
    ensures FirstIndirect(es, n).Some? ==>
      exists i :: 0 <= i < |es| && es[i] == FirstIndirect(es, n).value && es[i].name == n
    ensures FirstIndirect(es, n).None? ==> forall i :: 0 <= i < |es| ==> es[i].name != n
  {
    if es != [] && es[0].name != n {
      FirstIndirectIn(es[1..], n);
      if FirstIndirect(es[1..], n).Some? {
        var i :| 0 <= i < |es| - 1 && es[1..][i] == FirstIndirect(es, n).value && es[1..][i].name == n;
        assert es[i+1] == FirstIndirect(es, n).value;
      } else {
        forall i | 0 <= i < |es| ensures es[i].name != n {
          if i > 0 { assert es[i] == es[1..][i-1]; }
        }
      }
    }
  }

  lemma {:induction false} FirstLocalIn(es: seq<LocalExport>, n: Name)
    ensures FirstLocal(es, n).Some? ==>
      exists i :: 0 <= i < |es| && es[i].local == FirstLocal(es, n).value && es[i].name == n
    ensures FirstLocal(es, n).None? ==> forall i :: 0 <= i < |es| ==> es[i].name != n
  {
    if es != [] && es[0].name != n {
      FirstLocalIn(es[1..], n);
      if FirstLocal(es[1..], n).Some? {
        var i :| 0 <= i < |es| - 1 && es[1..][i].local == FirstLocal(es, n).value && es[1..][i].name == n;
        assert es[i+1].local == FirstLocal(es, n).value && es[i+1].name == n;
      } else {
        forall i | 0 <= i < |es| ensures es[i].name != n {
          if i > 0 { assert es[i] == es[1..][i-1]; }
        }
      }
    }
  }

  lemma TargetInRange(g: Graph, m: Id, req: nat)
    requires g.Loaded()
    ensures g.Target(m, req) <= |g.mods|
    ensures req < |g.Requested(m)| ==> g.Target(m, req) < |g.mods|
  {
    if req < |g.Requested(m)| {
      assert g.mods[m].requested[req] < |g.mods|;
    }
  }

  lemma UniverseClosed(g: Graph, n: Name)
    requires g.Loaded()
    ensures Closed(Asks(g), Universe(g, n))
    ensures forall m: Id | m <= |g.mods| :: Query(m, n) in Universe(g, n)
  {
    forall q, w | q in Universe(g, n) && w in Asks(g)(q) ensures w in Universe(g, n) {
      assert w in Forwards(g, q);
      var mod := g.mods[q.m];
      FirstIndirectIn(mod.indirects, q.name);
      var ind := FirstIndirect(mod.indirects, q.name);
      if ind.Some? {
        TargetInRange(g, q.m, ind.value.req);
        var i :| 0 <= i < |mod.indirects| && mod.indirects[i] == ind.value;
        assert w.name in ImportedNames(g);
      } else {
        var i :| 0 <= i < |mod.stars| && w == Query(g.Target(q.m, mod.stars[i]), q.name);
        TargetInRange(g, q.m, mod.stars[i]);
      }
    }
  }

  // ── resolveExport ────────────────────────────────────────────────────────

  /** What one completed call may claim about a query it has covered. */
  ghost predicate Fits(g: Graph, q: Query, r: Resolution) {
    Terminal(g, q).Some? ==> r == Found(Terminal(g, q).value)
  }

  /** `w` needs no further look: it is on the visited list, or it is a synthetic
      module's query whose answer is already part of `r`. */
  ghost predicate Covered(g: Graph, visited: set<Query>, r: Resolution, w: Query) {
    w in visited || (!g.Cyclic(w.m) && Fits(g, w, r))
  }

  /** The queries `now` has beyond `before` are reachable from `q`, agree with `r`
      and only forward to covered queries. */
  ghost predicate Explored(g: Graph, q: Query, before: set<Query>, now: set<Query>, r: Resolution) {
    && before <= now
    && (forall v | v in now && v !in before :: Reach(Asks(g), q, v))
    && (!r.Ambiguous? ==> forall v | v in now && v !in before ::
          Fits(g, v, r) && forall w | w in Forwards(g, v) :: Covered(g, now, r, w))
  }

  /** The answer is backed by reachable bindings. */
  ghost predicate Backed(g: Graph, q: Query, r: Resolution) {
    match r
    case NotFound => true
    case Found(b) => Leads(g, q, b)
    case Ambiguous => exists b, c :: b != c && Leads(g, q, b) && Leads(g, q, c)
  }

  lemma LeadsStep(g: Graph, q: Query, w: Query, b: Binding)
    requires w in Forwards(g, q) && Leads(g, w, b)
    ensures Leads(g, q, b)
  {
    var t :| Reach(Asks(g), w, t) && Terminal(g, t) == Some(b);
    ReachStep(Asks(g), q, w, t);
  }

  lemma BackedStep(g: Graph, q: Query, w: Query, r: Resolution)
    requires w in Forwards(g, q) && Backed(g, w, r)
    ensures Backed(g, q, r)
  {
    match r
    case NotFound =>
    case Found(b) => LeadsStep(g, q, w, b);
    case Ambiguous =>
      var b, c :| b != c && Leads(g, w, b) && Leads(g, w, c);
      LeadsStep(g, q, w, b);
      LeadsStep(g, q, w, c);
  }

  lemma ForwardedOnce(g: Graph, q: Query, w: Query, before: set<Query>, now: set<Query>, r: Resolution)
    requires Forwards(g, q) == [w] && Terminal(g, q) == None && q !in before
    requires Explored(g, w, before + {q}, now, r) && Backed(g, w, r)
    requires !r.Ambiguous? ==> Covered(g, now, r, w)
    ensures Explored(g, q, before, now, r) && Backed(g, q, r)
  {
    assert w in Asks(g)(q);
    BackedStep(g, q, w, r);
    ReachRefl(Asks(g), q);
    forall v | v in now && v !in before ensures Reach(Asks(g), q, v) {
      if v != q { ReachStep(Asks(g), q, w, v); }
    }
  }

  /** The star loop of the call for `q` has merged the answers of the first `i` star exports into `r`. */
  ghost predicate Merging(g: Graph, q: Query, before: set<Query>, now: set<Query>, r: Resolution, i: nat) {
    && before + {q} <= now
    && (forall v | v in now && v !in before :: Reach(Asks(g), q, v))
    && !r.Ambiguous? && Backed(g, q, r)
    && (forall v | v in now && v !in before && v != q ::
          Fits(g, v, r) && forall w | w in Forwards(g, v) :: Covered(g, now, r, w))
    && (forall j | 0 <= j < i && j < |Forwards(g, q)| :: Covered(g, now, r, Forwards(g, q)[j]))
  }

  lemma MergeBegin(g: Graph, q: Query, before: set<Query>)
    ensures Merging(g, q, before, before + {q}, NotFound, 0)
  {
    ReachRefl(Asks(g), q);
  }

  lemma MergeStep(g: Graph, q: Query, before: set<Query>, mid: set<Query>, now: set<Query>,
                  r0: Resolution, r1: Resolution, r: Resolution, i: nat)
    requires Merging(g, q, before, mid, r0, i) && i < |Forwards(g, q)|
    requires Explored(g, Forwards(g, q)[i], mid, now, r1) && Backed(g, Forwards(g, q)[i], r1)
    requires !r1.Ambiguous? && Covered(g, now, r1, Forwards(g, q)[i])
    requires r == (if r1.NotFound? then r0 else r1) && (r0.NotFound? || r1.NotFound? || r0 == r1)
    ensures Merging(g, q, before, now, r, i + 1)
  {
    var w := Forwards(g, q)[i];
    assert w in Asks(g)(q);
    BackedStep(g, q, w, r1);
    forall v | v in now && v !in before ensures Reach(Asks(g), q, v) {
      if v !in mid { ReachStep(Asks(g), q, w, v); }
    }
  }

  lemma MergeAmbiguous(g: Graph, q: Query, before: set<Query>, mid: set<Query>, now: set<Query>,
                       r0: Resolution, r1: Resolution, i: nat)
    requires Merging(g, q, before, mid, r0, i) && i < |Forwards(g, q)|
    requires Explored(g, Forwards(g, q)[i], mid, now, r1) && Backed(g, Forwards(g, q)[i], r1)
    requires r1.Ambiguous? || (r0.Found? && r1.Found? && r0 != r1)
    ensures Explored(g, q, before, now, Ambiguous) && Backed(g, q, Ambiguous)
  {
    var w := Forwards(g, q)[i];
    assert w in Asks(g)(q);
    BackedStep(g, q, w, r1);
    forall v | v in now && v !in before ensures Reach(Asks(g), q, v) {
      if v !in mid { ReachStep(Asks(g), q, w, v); }
    }
    if r1.Found? { assert Leads(g, q, r1.binding) && Leads(g, q, r0.binding); }
  }

  lemma MergeEnd(g: Graph, q: Query, before: set<Query>, now: set<Query>, r: Resolution)
    requires Terminal(g, q) == None && q !in before
    requires Merging(g, q, before, now, r, |Forwards(g, q)|)
    ensures Explored(g, q, before, now, r) && Backed(g, q, r) && Covered(g, now, r, q)
  {
    forall w | w in Forwards(g, q) ensures Covered(g, now, r, w) {
      var j :| 0 <= j < |Forwards(g, q)| && Forwards(g, q)[j] == w;
    }
  }

  /** Once everything reachable has been covered, the backed answer is the meaning. */
  lemma CoveredIsMeaning(g: Graph, q: Query, visited: set<Query>, r: Resolution)
    requires Explored(g, q, {}, visited, r) && Backed(g, q, r)
    requires !r.Ambiguous? ==> Covered(g, visited, r, q)
    ensures Resolves(g, q, r)
  {
    if !r.Ambiguous? {
      forall b | Leads(g, q, b) ensures r == Found(b) {
        var t :| Reach(Asks(g), q, t) && Terminal(g, t) == Some(b);
        if q in visited && t !in visited {
          var u, w := ReachExit(Asks(g), visited, q, t);
          assert w in Forwards(g, u);
          assert Forwards(g, w) == [];
          ReachFromSink(Asks(g), w, t);
        } else if q !in visited {
          assert Forwards(g, q) == [];
          ReachFromSink(Asks(g), q, t);
        }
      }
    }
  }

  // ── getExportedNames ─────────────────────────────────────────────────────

  function LocalNames(es: seq<LocalExport>): seq<Name> {
    seq(|es|, i requires 0 <= i < |es| => es[i].name)
  }

  function IndirectNames(es: seq<IndirectExport>): seq<Name> {
    seq(|es|, i requires 0 <= i < |es| => es[i].name)
  }

  /** The names `m` exports without asking another module. */
  function OwnNames(g: Graph, m: Id): seq<Name> {
    if m >= |g.mods| then []
    else match g.mods[m]
      case Synthetic(names) => names
      case SourceText(_, locals, indirects, _, _, _) => LocalNames(locals) + IndirectNames(indirects)
  }

  function StarTargets(g: Graph, m: Id): seq<Id> {
    if g.Cyclic(m) then
      var stars := g.mods[m].stars;
      seq(|stars|, i requires 0 <= i < |stars| => g.Target(m, stars[i]))
    else []
  }

  ghost function StarEdges(g: Graph): Id -> seq<Id> {
    (m: Id) => StarTargets(g, m)
  }

  /** The declarative meaning of the export list: own names, and whatever a
      star-reachable module declares, except `default`. */
  ghost predicate Exported(g: Graph, m: Id, n: Name) {
    n in OwnNames(g, m) ||
    (n != DEFAULT && exists k :: Reach(StarEdges(g), m, k) && n in OwnNames(g, k))
  }

  ghost predicate Distinct<T(!new)>(s: seq<T>) {
    forall i, j | 0 <= i < j < |s| :: s[i] != s[j]
  }

  /** The parser rejects a module that exports one name twice. */
  ghost predicate OwnNamesDistinct(g: Graph) {
    forall m: Id | m < |g.mods| :: Distinct(OwnNames(g, m))
  }

  /** `m` has nothing left to contribute to `names` that `names` lacks. */
  ghost predicate Listed(g: Graph, visited: set<Id>, names: seq<Name>, m: Id) {
    m in visited || (!g.Cyclic(m) && OwnListed(g, names, m))
  }

  ghost predicate OwnListed(g: Graph, names: seq<Name>, m: Id) {
    forall n | n in OwnNames(g, m) && n != DEFAULT :: n in names
  }

  ghost predicate Walked(g: Graph, before: set<Id>, now: set<Id>, names: seq<Name>) {
    && before <= now
    && (forall k | k in now && k !in before :: g.Cyclic(k) && OwnListed(g, names, k)
          && forall t | t in StarTargets(g, k) :: Listed(g, now, names, t))
  }

  lemma ExportedStep(g: Graph, m: Id, t: Id, n: Name)
    requires t in StarTargets(g, m) && Exported(g, t, n) && n != DEFAULT
    ensures Exported(g, m, n)
  {
    if n in OwnNames(g, t) {
      ReachEdge(StarEdges(g), m, t);
    } else {
      var k :| Reach(StarEdges(g), t, k) && n in OwnNames(g, k);
      ReachStep(StarEdges(g), m, t, k);
    }
  }

  lemma OwnIsExported(g: Graph, m: Id)
    ensures forall n | n in OwnNames(g, m) :: Exported(g, m, n)
    ensures OwnListed(g, OwnNames(g, m), m)
  {
  }

  /** The star loop of `m` has added the names of the first `i` star exports. */
  ghost predicate Collecting(g: Graph, m: Id, entered: set<Id>, now: set<Id>, names: seq<Name>, i: nat) {
    && Walked(g, entered, now, names)
    && (forall n | n in OwnNames(g, m) :: n in names)
    && (forall n | n in names :: Exported(g, m, n))
    && (forall j | 0 <= j < i && j < |StarTargets(g, m)| :: Listed(g, now, names, StarTargets(g, m)[j]))
  }

  lemma CollectStep(g: Graph, m: Id, entered: set<Id>, mid: set<Id>, now: set<Id>,
                    had: seq<Name>, more: seq<Name>, names: seq<Name>, i: nat)
    requires Collecting(g, m, entered, mid, had, i) && i < |StarTargets(g, m)|
    requires Walked(g, mid, now, more) && Listed(g, now, more, StarTargets(g, m)[i])
    requires forall n | n in more :: Exported(g, StarTargets(g, m)[i], n)
    requires forall n :: n in names <==> n in had || (n in more && n != DEFAULT)
    ensures Collecting(g, m, entered, now, names, i + 1)
  {
    forall n | n in names ensures Exported(g, m, n) {
      if n !in had { ExportedStep(g, m, StarTargets(g, m)[i], n); }
    }
  }

  lemma CollectEnd(g: Graph, m: Id, before: set<Id>, now: set<Id>, names: seq<Name>)
    requires g.Cyclic(m) && before + {m} <= now
    requires Collecting(g, m, before + {m}, now, names, |StarTargets(g, m)|)
    ensures Walked(g, before, now, names) && Listed(g, now, names, m)
    ensures forall n | n in OwnNames(g, m) :: n in names
    ensures forall n | n in names :: Exported(g, m, n)
  {
    forall t | t in StarTargets(g, m) ensures Listed(g, now, names, t) {
      var j :| 0 <= j < |StarTargets(g, m)| && StarTargets(g, m)[j] == t;
    }
  }

  /** A walk from an empty list that has seen every star target lists every exported name. */
  lemma WalkedIsExported(g: Graph, m: Id, visited: set<Id>, names: seq<Name>, n: Name)
    requires Walked(g, {}, visited, names)
    requires Listed(g, visited, names, m) && (forall k | k in OwnNames(g, m) :: k in names)
    requires Exported(g, m, n)
    ensures n in names
  {
    if n !in OwnNames(g, m) {
      var k :| Reach(StarEdges(g), m, k) && n in OwnNames(g, k);
      if m in visited && k !in visited {
        var u, w := ReachExit(StarEdges(g), visited, m, k);
        assert w in StarTargets(g, u);
        ReachFromSink(StarEdges(g), w, k);
      } else if m !in visited {
        ReachFromSink(StarEdges(g), m, k);
      }
    }
  }

  // ── Resolution and the export list agree ─────────────────────────────────

  lemma OwnNamesAnswer(g: Graph, q: Query)
    requires q.m < |g.mods|
    ensures g.mods[q.m].SourceText? ==>
      (q.name in OwnNames(g, q.m) <==>
        FirstLocal(g.mods[q.m].locals, q.name).Some? || FirstIndirect(g.mods[q.m].indirects, q.name).Some?)
    ensures Terminal(g, q).Some? ==> q.name in OwnNames(g, q.m)
  {
    if g.mods[q.m].SourceText? {
      var mod := g.mods[q.m];
      FirstLocalIn(mod.locals, q.name);
      FirstIndirectIn(mod.indirects, q.name);
      if i :| 0 <= i < |mod.locals| && mod.locals[i].name == q.name {
        assert OwnNames(g, q.m)[i] == q.name;
      }
      if i :| 0 <= i < |mod.indirects| && mod.indirects[i].name == q.name {
        assert OwnNames(g, q.m)[|mod.locals| + i] == q.name;
      }
    }
  }

  /** Whatever resolves, even ambiguously, is in the export list. */
  lemma {:induction false} LeadsIsExported(g: Graph, p: seq<Query>, b: Binding)
    requires IsPath(Asks(g), p) && Terminal(g, p[|p|-1]) == Some(b)
    ensures Exported(g, p[0].m, p[0].name)
    decreases |p|
  {
    var q := p[0];
    if |p| == 1 {
      OwnNamesAnswer(g, q);
    } else {
      assert p[0+1] in Forwards(g, q);
      OwnNamesAnswer(g, q);
      if q.name !in OwnNames(g, q.m) {
        var rest := p[1..];
        forall i | 0 <= i < |rest| - 1 ensures rest[i+1] in Asks(g)(rest[i]) {
          assert p[(i+1)+1] in Asks(g)(p[i+1]);
        }
        LeadsIsExported(g, rest, b);
        var stars := g.mods[q.m].stars;
        var i :| 0 <= i < |stars| && rest[0] == Query(g.Target(q.m, stars[i]), q.name);
        assert StarTargets(g, q.m)[i] == rest[0].m;
        ExportedStep(g, q.m, rest[0].m, q.name);
      }
    }
  }

  lemma ResolvableIsExported(g: Graph, q: Query)
    requires !Meaning(g, q).NotFound?
    ensures Exported(g, q.m, q.name)
  {
    var b :| Leads(g, q, b);
    var t :| Reach(Asks(g), q, t) && Terminal(g, t) == Some(b);
    var p :| PathFrom(Asks(g), q, t, p);
    LeadsIsExported(g, p, b);
  }

  /** A resolution that found a named binding found a local export of its module,
      or a name of a synthetic module. */
  lemma FoundIsLocal(g: Graph, q: Query)
    requires Meaning(g, q).Found? && Meaning(g, q).binding.name.Named?
    ensures var b := Meaning(g, q).binding;
      b.target < |g.mods| &&
      (g.Cyclic(b.target) ==> exists i :: 0 <= i < |g.mods[b.target].locals| && g.mods[b.target].locals[i].local == b.name.name)
    ensures exists t :: Reach(Asks(g), q, t) && t.m == Meaning(g, q).binding.target
  {
    var b := Meaning(g, q).binding;
    var t :| Reach(Asks(g), q, t) && Terminal(g, t) == Some(b);
    if g.mods[t.m].SourceText? { FirstLocalIn(g.mods[t.m].locals, t.name); }
  }

  /** A module a query reaches is reachable by imports. */
  lemma {:induction false} AskedIsImported(g: Graph, p: seq<Query>)
    requires g.Loaded() && IsPath(Asks(g), p)
    ensures Reach(Imports(g), p[0].m, p[|p|-1].m)
    decreases |p|
  {
    var q := p[0];
    if |p| == 1 {
      ReachRefl(Imports(g), q.m);
    } else {
      var rest := p[1..];
      forall i | 0 <= i < |rest| - 1 ensures rest[i+1] in Asks(g)(rest[i]) {
        assert p[(i+1)+1] in Asks(g)(p[i+1]);
      }
      assert p[0+1] in Forwards(g, q);
      AskedIsImported(g, rest);
      var mod := g.mods[q.m];
      FirstIndirectIn(mod.indirects, q.name);
      var ind := FirstIndirect(mod.indirects, q.name);
      if ind.Some? {
        var i :| 0 <= i < |mod.indirects| && mod.indirects[i] == ind.value;
        assert rest[0].m == mod.requested[ind.value.req];
      } else {
        var i :| 0 <= i < |mod.stars| && rest[0] == Query(g.Target(q.m, mod.stars[i]), q.name);
        assert mod.stars[i] < |mod.requested|;
        assert rest[0].m == mod.requested[mod.stars[i]];
      }
      assert rest[0].m in Imports(g)(q.m);
      ReachStep(Imports(g), q.m, rest[0].m, p[|p|-1].m);
    }
  }

  // ── The walks themselves ─────────────────────────────────────────────────

  ghost function Elements<T(!new)>(s: seq<T>): set<T> {
    set x | x in s
  }

  method FindLocal(es: seq<LocalExport>, n: Name) returns (r: Option<Name>)
    ensures r == FirstLocal(es, n)
  {
    for i := 0 to |es|
      invariant FirstLocal(es, n) == FirstLocal(es[i..], n)
    {
      if es[i].name == n { return Some(es[i].local); }
    }
    return None;
  }

  method FindIndirect(es: seq<IndirectExport>, n: Name) returns (r: Option<IndirectExport>)
    ensures r == FirstIndirect(es, n)
  {
    for i := 0 to |es|
      invariant FirstIndirect(es, n) == FirstIndirect(es[i..], n)
    {
      if es[i].name == n { return Some(es[i]); }
    }
    return None;
  }

  /** The names `m` declares itself, in source order. */
  method DeclaredNames(g: Graph, m: Id) returns (names: seq<Name>)
    requires g.Cyclic(m)
    ensures names == OwnNames(g, m)
  {
    var mod := g.mods[m];
    names := [];
    for i := 0 to |mod.locals|
      invariant names == LocalNames(mod.locals)[..i]
    {
      names := names + [mod.locals[i].name];
    }
    for i := 0 to |mod.indirects|
      invariant names == LocalNames(mod.locals) + IndirectNames(mod.indirects)[..i]
    {
      names := names + [mod.indirects[i].name];
    }
  }

  /** Names a star export brings in: no `default`, nothing twice. */
  method AddStarNames(had: seq<Name>, more: seq<Name>) returns (names: seq<Name>)
    ensures forall n :: n in names <==> n in had || (n in more && n != DEFAULT)
    ensures Distinct(had) ==> Distinct(names)
  {
    names := had;
    for j := 0 to |more|
      invariant forall n :: n in names <==> n in had || (n in more[..j] && n != DEFAULT)
      invariant Distinct(had) ==> Distinct(names)
    {
      assert more[..j+1] == more[..j] + [more[j]];
      if more[j] != DEFAULT && more[j] !in names { names := names + [more[j]]; }
    }
    assert more[..|more|] == more;
  }

  /** One `resolveExport` or `getExportedNames` walk: a visited list that every
      recursive call of the walk shares and extends. */
  class Walk {
    const g: Graph
    var resolveSet: seq<Query>
    var exportStarSet: seq<Id>

    constructor (g: Graph)
      ensures this.g == g && resolveSet == [] && exportStarSet == []
    {
      this.g := g;
      resolveSet := [];
      exportStarSet := [];
    }

    method ResolveExport(m: Id, name: Name, ghost universe: set<Query>) returns (r: Resolution)
      requires g.Loaded() && m < |g.mods|
      requires Query(m, name) in universe && Closed(Asks(g), universe) && Elements(resolveSet) <= universe
      modifies this`resolveSet
      ensures Elements(resolveSet) <= universe
      ensures Explored(g, Query(m, name), Elements(old(resolveSet)), Elements(resolveSet), r)
      ensures Backed(g, Query(m, name), r)
      ensures !r.Ambiguous? ==> Covered(g, Elements(resolveSet), r, Query(m, name))
      decreases universe - Elements(resolveSet), 0
    {
      ghost var q := Query(m, name);
      ghost var before := Elements(resolveSet);
      ReachRefl(Asks(g), q);
      if !g.Cyclic(m) {
        if name in g.mods[m].exportNames {
          assert Terminal(g, q) == Some(Binding(m, Named(name)));
          return Found(Binding(m, Named(name)));
        }
        return NotFound;
      }
      if Query(m, name) in resolveSet { return NotFound; }
      resolveSet := resolveSet + [Query(m, name)];
      assert Elements(resolveSet) == before + {q};
      var mod := g.mods[m];
      var local := FindLocal(mod.locals, name);
      if local.Some? {
        assert Terminal(g, q) == Some(Binding(m, Named(local.value)));
        return Found(Binding(m, Named(local.value)));
      }
      var e := FindIndirect(mod.indirects, name);
      if e.Some? {
        FirstIndirectIn(mod.indirects, name);
        var imported := mod.requested[e.value.req];
        if e.value.importName.None? {
          assert Terminal(g, q) == Some(Binding(imported, Namespace));
          return Found(Binding(imported, Namespace));
        }
        ghost var w := Query(imported, e.value.importName.value);
        assert Forwards(g, q) == [w];
        assert w in Asks(g)(q);
        r := ResolveExport(imported, e.value.importName.value, universe);
        ForwardedOnce(g, q, w, before, Elements(resolveSet), r);
        return;
      }
      if name == DEFAULT { return NotFound; }
      r := ResolveStars(m, name, before, universe);
    }

    /** The loop over the star exports of `m`, whose query has just been put on the list. */
    method ResolveStars(m: Id, name: Name, ghost before: set<Query>, ghost universe: set<Query>) returns (r: Resolution)
      requires g.Loaded() && g.Cyclic(m)
      requires |Forwards(g, Query(m, name))| == |g.mods[m].stars| && Terminal(g, Query(m, name)) == None
      requires forall i | 0 <= i < |g.mods[m].stars| ::
          Forwards(g, Query(m, name))[i] == Query(g.mods[m].requested[g.mods[m].stars[i]], name)
      requires Query(m, name) in universe && Closed(Asks(g), universe) && Elements(resolveSet) <= universe
      requires Elements(resolveSet) == before + {Query(m, name)} && Query(m, name) !in before
      modifies this`resolveSet
      ensures Elements(resolveSet) <= universe
      ensures Explored(g, Query(m, name), before, Elements(resolveSet), r)
      ensures Backed(g, Query(m, name), r)
      ensures !r.Ambiguous? ==> Covered(g, Elements(resolveSet), r, Query(m, name))
      decreases universe - Elements(resolveSet), 1
    {
      hide Leads, Covered, Fits, Terminal, Forwards;
      ghost var q := Query(m, name);
      var mod := g.mods[m];
      MergeBegin(g, q, before);
      var starResolution := NotFound;
      for i := 0 to |mod.stars|
        invariant old(Elements(resolveSet)) <= Elements(resolveSet) <= universe
        invariant Merging(g, q, before, Elements(resolveSet), starResolution, i)
      {
        ghost var mid := Elements(resolveSet);
        assert Forwards(g, q)[i] in Asks(g)(q);
        var resolution := ResolveExport(mod.requested[mod.stars[i]], name, universe);
        if resolution.Ambiguous? {
          MergeAmbiguous(g, q, before, mid, Elements(resolveSet), starResolution, resolution, i);
          return Ambiguous;
        }
        if starResolution.Found? && resolution.Found? && resolution != starResolution {
          MergeAmbiguous(g, q, before, mid, Elements(resolveSet), starResolution, resolution, i);
          return Ambiguous;
        }
        MergeStep(g, q, before, mid, Elements(resolveSet), starResolution, resolution,
                  if resolution.NotFound? then starResolution else resolution, i);
        if resolution.NotFound? { continue; }
        if starResolution.NotFound? { starResolution := resolution; }
      }
      MergeEnd(g, q, before, Elements(resolveSet), starResolution);
      return starResolution;
    }

    method GetExportedNames(m: Id) returns (names: seq<Name>)
      requires g.Loaded() && m < |g.mods|
      requires Elements(exportStarSet) <= IdsBelow(|g.mods|)
      modifies this`exportStarSet
      ensures Elements(exportStarSet) <= IdsBelow(|g.mods|)
      ensures Walked(g, Elements(old(exportStarSet)), Elements(exportStarSet), names)
      ensures Listed(g, Elements(exportStarSet), names, m)
      ensures forall n | n in names :: Exported(g, m, n)
      ensures m !in old(exportStarSet) ==> forall n | n in OwnNames(g, m) :: n in names
      ensures OwnNamesDistinct(g) ==> Distinct(names)
      decreases IdsBelow(|g.mods|) - Elements(exportStarSet)
    {
      hide Exported, OwnListed;
      ghost var before := Elements(exportStarSet);
      if !g.Cyclic(m) {
        OwnIsExported(g, m);
        return g.mods[m].exportNames;
      }
      if m in exportStarSet { return []; }
      exportStarSet := exportStarSet + [m];
      assert Elements(exportStarSet) == before + {m};
      names := DeclaredNames(g, m);
      OwnIsExported(g, m);
      var mod := g.mods[m];
      for i := 0 to |mod.stars|
        invariant before + {m} <= Elements(exportStarSet) <= IdsBelow(|g.mods|)
        invariant Collecting(g, m, before + {m}, Elements(exportStarSet), names, i)
        invariant OwnNamesDistinct(g) ==> Distinct(names)
      {
        assert StarTargets(g, m)[i] == mod.requested[mod.stars[i]] < |g.mods|;
        ghost var mid := Elements(exportStarSet);
        var more := GetExportedNames(mod.requested[mod.stars[i]]);
        ghost var had := names;
        names := AddStarNames(names, more);
        CollectStep(g, m, before + {m}, mid, Elements(exportStarSet), had, more, names, i);
      }
      CollectEnd(g, m, before, Elements(exportStarSet), names);
    }
  }

  /** `resolveExport(m, name, [])`. */
  method Resolve(g: Graph, m: Id, name: Name) returns (r: Resolution)
    requires g.Loaded() && m < |g.mods|
    ensures r == Meaning(g, Query(m, name))
  {
    var walk := new Walk(g);
    UniverseClosed(g, name);
    r := walk.ResolveExport(m, name, Universe(g, name));
    CoveredIsMeaning(g, Query(m, name), Elements(walk.resolveSet), r);
    MeaningUnique(g, Query(m, name), r);
  }

  /** `getExportedNames(m, [])`. */
  method ExportedNames(g: Graph, m: Id) returns (names: seq<Name>)
    requires g.Loaded() && m < |g.mods|
    ensures forall n :: n in names <==> Exported(g, m, n)
    ensures OwnNamesDistinct(g) ==> Distinct(names)
  {
    var walk := new Walk(g);
    names := walk.GetExportedNames(m);
    forall n | Exported(g, m, n) ensures n in names {
      WalkedIsExported(g, m, Elements(walk.exportStarSet), names, n);
    }
  }

  datatype Entry = Entry(key: Name, binding: Binding)

  /** The keys of the namespace object of `m` are exactly the names that resolve
      unambiguously, each with the binding it resolves to. */
  method NamespaceEntries(g: Graph, m: Id) returns (entries: seq<Entry>)
    requires g.Loaded() && m < |g.mods|
    ensures forall e | e in entries :: Meaning(g, Query(m, e.key)) == Found(e.binding)
    ensures forall n, b | Meaning(g, Query(m, n)) == Found(b) :: Entry(n, b) in entries
    ensures OwnNamesDistinct(g) ==> forall i, j | 0 <= i < j < |entries| :: entries[i].key != entries[j].key
  {
    hide Meaning;
    var names := ExportedNames(g, m);
    entries := [];
    for i := 0 to |names|
      invariant forall e | e in entries :: Meaning(g, Query(m, e.key)) == Found(e.binding) && e.key in names[..i]
      invariant forall j, b | 0 <= j < i && Meaning(g, Query(m, names[j])) == Found(b) :: Entry(names[j], b) in entries
      invariant Distinct(names) ==> forall j, k | 0 <= j < k < |entries| :: entries[j].key != entries[k].key
    {
      var r := Resolve(g, m, names[i]);
      assert names[..i+1] == names[..i] + [names[i]];
      if r.Found? {
        entries := entries + [Entry(names[i], r.binding)];
      }
    }
    assert names[..|names|] == names;
    forall n, b | Meaning(g, Query(m, n)) == Found(b) ensures Entry(n, b) in entries {
      ResolvableIsExported(g, Query(m, n));
    }
  }
}
