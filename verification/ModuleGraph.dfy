/** What an import graph is, before anything is linked or evaluated: the part of
    every module record that loading fills in and nothing changes afterwards. */
module ModuleGraph {

  datatype Option<+T> = None | Some(value: T)

  /** A record is identified by its position in the registry. */
  type Id = nat
  type Name = string

  const DEFAULT: Name := "default"

  /** `export { local as name }` and every other export of an own binding. */
  datatype LocalExport = LocalExport(name: Name, local: Name)

  /** `export { importName as name } from <req>`; no import name means `export * as name from <req>`. */
  datatype IndirectExport = IndirectExport(name: Name, req: nat, importName: Option<Name>)

  /** `import { name as local } from <req>`; no name means `import * as local from <req>`. */
  datatype ImportEntry = ImportEntry(req: nat, name: Option<Name>, local: Name)

  datatype Module =
    | SourceText(requested: seq<Id>,
                 locals: seq<LocalExport>,
                 indirects: seq<IndirectExport>,
                 stars: seq<nat>,
                 imports: seq<ImportEntry>,
                 hasTLA: bool)
    | Synthetic(exportNames: seq<Name>)

  datatype Graph = Graph(mods: seq<Module>) {

    predicate Cyclic(m: Id) {
      m < |mods| && mods[m].SourceText?
    }

    function Requested(m: Id): seq<Id> {
      if Cyclic(m) then mods[m].requested else []
    }

    predicate HasTLA(m: Id) {
      Cyclic(m) && mods[m].hasTLA
    }

    /** The record the `req`-th request of `m` was resolved to. */
    function Target(m: Id, req: nat): Id {
      if req < |Requested(m)| then Requested(m)[req] else |mods|
    }

    /** Every load succeeded: each request leads to a registered record and each
        export or import entry names one of the requests. */
    ghost predicate Loaded() {
      forall m: Id | m < |mods| && mods[m].SourceText? ::
        && (forall i | 0 <= i < |mods[m].requested| :: mods[m].requested[i] < |mods|)
        && (forall i | 0 <= i < |mods[m].indirects| :: mods[m].indirects[i].req < |mods[m].requested|)
        && (forall i | 0 <= i < |mods[m].stars| :: mods[m].stars[i] < |mods[m].requested|)
        && (forall i | 0 <= i < |mods[m].imports| :: mods[m].imports[i].req < |mods[m].requested|)
    }
  }

  /** The first `n` identifiers. */
  ghost function IdsBelow(n: nat): (s: set<Id>)
    ensures forall k: Id {:trigger k in s} :: k in s <==> k < n
    ensures |s| == n
  {
    if n == 0 then {} else IdsBelow(n - 1) + {n - 1}
  }

  /** The `requested` edges, as a successor function. */
  ghost function Imports(g: Graph): Id -> seq<Id> {
    (m: Id) => g.Requested(m)
  }

  lemma RequestedInRange(g: Graph, m: Id, x: Id)
    requires g.Loaded()
    requires x in g.Requested(m)
    ensures x < |g.mods|
  {
    var i :| 0 <= i < |g.Requested(m)| && g.Requested(m)[i] == x;
    assert g.mods[m].requested[i] < |g.mods|;
  }
}

/** Reachability along a successor function. */
module Reachability {

  ghost predicate IsPath<N(!new)>(succ: N -> seq<N>, p: seq<N>) {
    && |p| > 0
    && forall i | 0 <= i < |p| - 1 :: p[i+1] in succ(p[i])
  }

  ghost predicate PathFrom<N(!new)>(succ: N -> seq<N>, x: N, y: N, p: seq<N>) {
    IsPath(succ, p) && p[0] == x && p[|p|-1] == y
  }

  ghost predicate Reach<N(!new)>(succ: N -> seq<N>, x: N, y: N) {
    exists p :: PathFrom(succ, x, y, p)
  }

  ghost predicate MutualReach<N(!new)>(succ: N -> seq<N>, x: N, y: N) {
    Reach(succ, x, y) && Reach(succ, y, x)
  }

  /** `x` lies on a cycle: some edge out of `x` leads back to `x`. */
  ghost predicate OnCycle<N(!new)>(succ: N -> seq<N>, x: N) {
    exists y :: y in succ(x) && Reach(succ, y, x)
  }

  ghost predicate Closed<N(!new)>(succ: N -> seq<N>, s: set<N>) {
    forall x, y | x in s && y in succ(x) :: y in s
  }

  lemma ReachRefl<N(!new)>(succ: N -> seq<N>, x: N)
    ensures Reach(succ, x, x)
  {
    assert PathFrom(succ, x, x, [x]);
  }

  lemma ReachEdge<N(!new)>(succ: N -> seq<N>, x: N, y: N)
    requires y in succ(x)
    ensures Reach(succ, x, y)
  {
    assert PathFrom(succ, x, y, [x, y]);
  }

  lemma ReachTrans<N(!new)>(succ: N -> seq<N>, x: N, y: N, z: N)
    requires Reach(succ, x, y) && Reach(succ, y, z)
    ensures Reach(succ, x, z)
  {
    var p :| PathFrom(succ, x, y, p);
    var q :| PathFrom(succ, y, z, q);
    var r := p + q[1..];
    forall i | 0 <= i < |r| - 1 ensures r[i+1] in succ(r[i]) {
      if i < |p| - 1 {
        assert r[i] == p[i] && r[i+1] == p[i+1];
      } else {
        assert r[i] == q[i - |p| + 1] && r[i+1] == q[i - |p| + 2];
      }
    }
    assert r[|r|-1] == z;
    assert PathFrom(succ, x, z, r);
  }

  lemma ReachStep<N(!new)>(succ: N -> seq<N>, x: N, y: N, z: N)
    requires y in succ(x) && Reach(succ, y, z)
    ensures Reach(succ, x, z)
  {
    ReachEdge(succ, x, y);
    ReachTrans(succ, x, y, z);
  }

  /** The last step of a non-trivial path. */
  lemma ReachUnroll<N(!new)>(succ: N -> seq<N>, x: N, z: N) returns (y: N)
    requires Reach(succ, x, z) && x != z
    ensures y in succ(x) && Reach(succ, y, z)
  {
    var p :| PathFrom(succ, x, z, p);
    y := p[1];
    assert p[0 + 1] in succ(p[0]);
    var q := p[1..];
    forall i | 0 <= i < |q| - 1 ensures q[i+1] in succ(q[i]) {
      assert p[(i+1)+1] in succ(p[i+1]);
    }
    assert PathFrom(succ, y, z, q);
  }

  lemma ReachFromSink<N(!new)>(succ: N -> seq<N>, x: N, z: N)
    requires succ(x) == [] && Reach(succ, x, z)
    ensures x == z
  {
    if x != z { var y := ReachUnroll(succ, x, z); }
  }

  lemma ClosedReach<N(!new)>(succ: N -> seq<N>, s: set<N>, x: N, y: N)
    requires Closed(succ, s) && x in s && Reach(succ, x, y)
    ensures y in s
  {
    var p :| PathFrom(succ, x, y, p);
    ClosedPath(succ, s, p, |p| - 1);
  }

  lemma {:induction false} ClosedPath<N(!new)>(succ: N -> seq<N>, s: set<N>, p: seq<N>, k: nat)
    requires Closed(succ, s) && IsPath(succ, p) && p[0] in s && k < |p|
    ensures p[k] in s
  {
    if k > 0 {
      ClosedPath(succ, s, p, k - 1);
      assert p[(k - 1) + 1] in succ(p[k - 1]);
    }
  }

  /** A path that leaves a set leaves it along some edge. */
  lemma {:induction false} ReachExit<N(!new)>(succ: N -> seq<N>, s: set<N>, x: N, z: N) returns (u: N, w: N)
    requires Reach(succ, x, z) && x in s && z !in s
    ensures u in s && w !in s && w in succ(u)
    ensures Reach(succ, x, u) && Reach(succ, w, z)
  {
    var p :| PathFrom(succ, x, z, p);
    u, w := PathExit(succ, s, p);
  }

  lemma {:induction false} PathExit<N(!new)>(succ: N -> seq<N>, s: set<N>, p: seq<N>) returns (u: N, w: N)
    requires IsPath(succ, p) && p[0] in s && p[|p|-1] !in s
    ensures u in s && w !in s && w in succ(u)
    ensures Reach(succ, p[0], u) && Reach(succ, w, p[|p|-1])
    decreases |p|
  {
    var q := p[1..];
    assert p[0+1] in succ(p[0]);
    forall i | 0 <= i < |q| - 1 ensures q[i+1] in succ(q[i]) {
      assert p[(i+1)+1] in succ(p[i+1]);
    }
    if q[0] in s {
      u, w := PathExit(succ, s, q);
      ReachStep(succ, p[0], q[0], u);
    } else {
      u, w := p[0], q[0];
      ReachRefl(succ, u);
      assert PathFrom(succ, w, p[|p|-1], q);
    }
  }
}
