/** What the capture analysis looks for, by itself: the places where a function or a class
    is made, or `eval` is named, outside the bodies of functions and classes. */
module CaptureSites {
  import opened ModuleGraph
  import opened Reachability
  import opened Ast

  datatype Node = E(e: Expr) | S(s: Stmt)

  /** Something is made here that holds on to the scope, or `eval` is named. */
  predicate Site(n: Node) {
    match n
    case E(e) => e.Function? || e.Class? || e == Ident(EVAL)
    case S(s) => s.FuncDecl? || s.ClassDecl?
  }

  // ── The parts of a node ──────────────────────────────────────────────────

  function Exprs(es: seq<Expr>): seq<Node> {
    seq(|es|, i requires 0 <= i < |es| => E(es[i]))
  }

  function Stmts(ss: seq<Stmt>): seq<Node> {
    seq(|ss|, i requires 0 <= i < |ss| => S(ss[i]))
  }

  function Opt(e: Option<Expr>): seq<Node> {
    if e.Some? then [E(e.value)] else []
  }

  function PropParts(ps: seq<Prop>): seq<Node> {
    if ps == [] then []
    else PropParts(ps[..|ps|-1]) + match ps[|ps|-1]
      case KeyValue(key, value) => [E(key), E(value)]
      case Spread(e) => [E(e)]
  }

  function DeclParts(ds: seq<Declarator>): seq<Node> {
    if ds == [] then [] else DeclParts(ds[..|ds|-1]) + Opt(ds[|ds|-1].init)
  }

  function CaseParts(cs: seq<Case>): seq<Node> {
    if cs == [] then [] else CaseParts(cs[..|cs|-1]) + Opt(cs[|cs|-1].test) + Stmts(cs[|cs|-1].body)
  }

  /** The parts of an expression or a statement, in source order; the body of a function or
      a class is not part of the scope it is made in. */
  function Parts(n: Node): seq<Node> {
    match n
    case E(e) => (match e
      case Template(_, es) => Exprs(es)
      case Array(es) => Exprs(es)
      case Object(ps) => PropParts(ps)
      case Sequence(es) => Exprs(es)
      case Logical(_, l, r) => [E(l), E(r)]
      case Unary(_, inner) => [E(inner)]
      case Binary(_, l, r) => [E(l), E(r)]
      case Conditional(test, cons, alt) => [E(test), E(cons), E(alt)]
      case Assign(target, _, value) => [E(target), E(value)]
      case Update(_, _, target) => [E(target)]
      case Call(func, args) => [E(func)] + Exprs(args)
      case Member(receiver, _) => [E(receiver)]
      case Index(receiver, key) => [E(receiver), E(key)]
      case _ => [])
    case S(s) => (match s
      case ExprStmt(e) => [E(e)]
      case Throw(e) => [E(e)]
      case Return(value) => Opt(value)
      case Let(decls) => DeclParts(decls)
      case Block(body) => Stmts(body)
      case If(test, cons, alt) => [E(test), S(cons)] + if alt.Some? then [S(alt.value)] else []
      case While(test, body) => [E(test), S(body)]
      case DoWhile(body, test) => [S(body), E(test)]
      case For(init, test, update, body) =>
        (if init.Some? then [S(init.value)] else []) + Opt(test) + Opt(update) + [S(body)]
      case Switch(disc, cases) => [E(disc)] + CaseParts(cases)
      case Labeled(_, body) => [S(body)]
      case Try(block, handler, finalizer) =>
        Stmts(block) + (if handler.Some? then Stmts(handler.value.body) else [])
        + if finalizer.Some? then Stmts(finalizer.value.body) else []
      case _ => [])
  }

  ghost function PartsOf(): Node -> seq<Node> {
    (n: Node) => Parts(n)
  }

  predicate Captures(n: Node) {
    match n
    case E(e) => ExprCaptures(e)
    case S(s) => StmtCaptures(s)
  }

  // ── A part is inside, and nothing else is ────────────────────────────────

  ghost predicate InProp(p: Prop, n: Node) {
    match p
    case KeyValue(key, value) => n == E(key) || n == E(value)
    case Spread(e) => n == E(e)
  }

  lemma {:induction false} PropPart(ps: seq<Prop>, n: Node)
    ensures n in PropParts(ps) <==> exists i :: 0 <= i < |ps| && InProp(ps[i], n)
  {
    if ps != [] {
      var k := |ps| - 1;
      PropPart(ps[..k], n);
      assert ps == ps[..k] + [ps[k]];
    }
  }

  lemma {:induction false} DeclPart(ds: seq<Declarator>, n: Node)
    ensures n in DeclParts(ds) <==> exists i :: 0 <= i < |ds| && ds[i].init.Some? && n == E(ds[i].init.value)
  {
    if ds != [] {
      var k := |ds| - 1;
      DeclPart(ds[..k], n);
      assert ds == ds[..k] + [ds[k]];
    }
  }

  ghost predicate InCase(c: Case, n: Node) {
    (c.test.Some? && n == E(c.test.value)) || n in Stmts(c.body)
  }

  lemma {:induction false} CasePart(cs: seq<Case>, n: Node)
    ensures n in CaseParts(cs) <==> exists i :: 0 <= i < |cs| && InCase(cs[i], n)
  {
    if cs != [] {
      var k := |cs| - 1;
      CasePart(cs[..k], n);
      assert cs == cs[..k] + [cs[k]];
    }
  }

  lemma ExprsPart(es: seq<Expr>, n: Node)
    ensures n in Exprs(es) <==> n.E? && n.e in es
  {
    if n.E? && n.e in es {
      var i :| 0 <= i < |es| && es[i] == n.e;
      assert Exprs(es)[i] == n;
    }
  }

  lemma StmtsPart(ss: seq<Stmt>, n: Node)
    ensures n in Stmts(ss) <==> n.S? && n.s in ss
  {
    if n.S? && n.s in ss {
      var i :| 0 <= i < |ss| && ss[i] == n.s;
      assert Stmts(ss)[i] == n;
    }
  }

  // ── The analysis finds a site exactly when there is one ──────────────────

  /** A site is `n` itself, or a part of a part of it. */
  ghost predicate HasSite(n: Node) {
    exists x :: Reach(PartsOf(), n, x) && Site(x)
  }

  lemma SiteHere(n: Node)
    requires Site(n)
    ensures HasSite(n)
  {
    ReachRefl(PartsOf(), n);
  }

  lemma SiteInside(n: Node, k: Node)
    requires k in Parts(n) && HasSite(k)
    ensures HasSite(n)
  {
    assert k in PartsOf()(n);
    var x :| Reach(PartsOf(), k, x) && Site(x);
    hide Reach;
    ReachStep(PartsOf(), n, k, x);
  }

  /** One of a list of parts captures, or there is no list to look through. */
  lemma {:induction false} ExprsHaveSite(n: Node, es: seq<Expr>)
    requires exists i :: 0 <= i < |es| && ExprCaptures(es[i])
    requires forall k | k in Exprs(es) :: k in Parts(n)
    ensures HasSite(n)
    decreases es
  {
    var i :| 0 <= i < |es| && ExprCaptures(es[i]);
    ExprHasSite(es[i]);
    ExprsPart(es, E(es[i]));
    SiteInside(n, E(es[i]));
  }

  lemma {:induction false} StmtsHaveSite(n: Node, ss: seq<Stmt>)
    requires exists i :: 0 <= i < |ss| && StmtCaptures(ss[i])
    requires forall k | k in Stmts(ss) :: k in Parts(n)
    ensures HasSite(n)
    decreases ss
  {
    var i :| 0 <= i < |ss| && StmtCaptures(ss[i]);
    StmtHasSite(ss[i]);
    StmtsPart(ss, S(ss[i]));
    SiteInside(n, S(ss[i]));
  }

  lemma {:induction false} ExprHasSite(e: Expr)
    requires ExprCaptures(e)
    ensures HasSite(E(e))
    decreases e, 0
  {
    hide HasSite;
    match e
    case Function(_, _) => SiteHere(E(e));
    case Class(_) => SiteHere(E(e));
    case Ident(_) => SiteHere(E(e));
    case Template(_, es) => ExprsHaveSite(E(e), es);
    case Array(es) => ExprsHaveSite(E(e), es);
    case Sequence(es) => ExprsHaveSite(E(e), es);
    case Object(ps) =>
      var i :| 0 <= i < |ps| && PropCaptures(ps[i]);
      PropHasSite(e, ps[i]);
    case Logical(_, l, r) => OneHasSite(E(e), if ExprCaptures(l) then l else r);
    case Unary(_, inner) => OneHasSite(E(e), inner);
    case Binary(_, l, r) => OneHasSite(E(e), if ExprCaptures(l) then l else r);
    case Conditional(test, cons, alt) =>
      OneHasSite(E(e), if ExprCaptures(test) then test else if ExprCaptures(cons) then cons else alt);
    case Assign(target, _, value) => OneHasSite(E(e), if ExprCaptures(target) then target else value);
    case Update(_, _, target) => OneHasSite(E(e), target);
    case Call(func, args) => if ExprCaptures(func) { OneHasSite(E(e), func); } else { ExprsHaveSite(E(e), args); }
    case Member(receiver, _) => OneHasSite(E(e), receiver);
    case Index(receiver, key) => OneHasSite(E(e), if ExprCaptures(receiver) then receiver else key);
    case _ =>
  }

  lemma {:induction false} OneHasSite(n: Node, k: Expr)
    requires ExprCaptures(k) && E(k) in Parts(n)
    ensures HasSite(n)
    decreases k, 1
  {
    ExprHasSite(k);
    SiteInside(n, E(k));
  }

  lemma {:induction false} PropHasSite(e: Expr, p: Prop)
    requires e.Object? && p in e.props && PropCaptures(p)
    ensures HasSite(E(e))
    decreases p
  {
    match p
    case KeyValue(key, value) =>
      var k := if ExprCaptures(key) then key else value;
      PropPart(e.props, E(k));
      OneHasSite(E(e), k);
    case Spread(k) =>
      PropPart(e.props, E(k));
      OneHasSite(E(e), k);
  }

  lemma {:induction false} CaseHasSite(s: Stmt, c: Case)
    requires s.Switch? && c in s.cases && CaseCaptures(c)
    ensures HasSite(S(s))
    decreases c
  {
    if c.test.Some? && ExprCaptures(c.test.value) {
      CasePart(s.cases, E(c.test.value));
      OneHasSite(S(s), c.test.value);
    } else {
      forall k | k in Stmts(c.body) ensures k in Parts(S(s)) { CasePart(s.cases, k); }
      StmtsHaveSite(S(s), c.body);
    }
  }

  lemma {:induction false} InnerHasSite(s: Stmt, k: Stmt)
    requires StmtCaptures(k) && S(k) in Parts(S(s))
    ensures HasSite(S(s))
    decreases k, 2
  {
    StmtHasSite(k);
    SiteInside(S(s), S(k));
  }

  lemma {:induction false} StmtHasSite(s: Stmt)
    requires StmtCaptures(s)
    ensures HasSite(S(s))
    decreases s, 1
  {
    hide HasSite;
    match s
    case FuncDecl(_, _, _) => SiteHere(S(s));
    case ClassDecl(_, _) => SiteHere(S(s));
    case ExprStmt(e) => OneHasSite(S(s), e);
    case Throw(e) => OneHasSite(S(s), e);
    case Return(value) => OneHasSite(S(s), value.value);
    case Let(decls) =>
      var i :| 0 <= i < |decls| && decls[i].init.Some? && ExprCaptures(decls[i].init.value);
      DeclPart(decls, E(decls[i].init.value));
      OneHasSite(S(s), decls[i].init.value);
    case Block(body) => StmtsHaveSite(S(s), body);
    case If(test, cons, alt) =>
      if ExprCaptures(test) { OneHasSite(S(s), test); } else { InnerHasSite(s, if StmtCaptures(cons) then cons else alt.value); }
    case While(test, body) => if ExprCaptures(test) { OneHasSite(S(s), test); } else { InnerHasSite(s, body); }
    case DoWhile(body, test) => if ExprCaptures(test) { OneHasSite(S(s), test); } else { InnerHasSite(s, body); }
    case For(_, _, _, _) => ForHasSite(s);
    case Switch(disc, cases) =>
      if ExprCaptures(disc) { OneHasSite(S(s), disc); } else {
        var i :| 0 <= i < |cases| && CaseCaptures(cases[i]);
        CaseHasSite(s, cases[i]);
      }
    case Labeled(_, body) => InnerHasSite(s, body);
    case Try(_, _, _) => TryHasSite(s);
    case _ =>
  }

  lemma {:induction false} ForHasSite(s: Stmt)
    requires s.For? && StmtCaptures(s)
    ensures HasSite(S(s))
    decreases s, 0
  {
    hide HasSite;
    if s.init.Some? && StmtCaptures(s.init.value) {
      InnerHasSite(s, s.init.value);
    } else if s.cond.Some? && ExprCaptures(s.cond.value) {
      OneHasSite(S(s), s.cond.value);
    } else if s.update.Some? && ExprCaptures(s.update.value) {
      OneHasSite(S(s), s.update.value);
    } else {
      InnerHasSite(s, s.body1);
    }
  }

  lemma {:induction false} TryHasSite(s: Stmt)
    requires s.Try? && StmtCaptures(s)
    ensures HasSite(S(s))
    decreases s, 0
  {
    hide HasSite;
    if exists i :: 0 <= i < |s.block| && StmtCaptures(s.block[i]) {
      StmtsHaveSite(S(s), s.block);
    } else if s.handler.Some? && exists i :: 0 <= i < |s.handler.value.body| && StmtCaptures(s.handler.value.body[i]) {
      StmtsHaveSite(S(s), s.handler.value.body);
    } else {
      StmtsHaveSite(S(s), s.finalizer.value.body);
    }
  }

  // ── and only then ────────────────────────────────────────────────────────

  lemma ExprPartCaptures(e: Expr, k: Node)
    requires k in Parts(E(e)) && Captures(k)
    ensures ExprCaptures(e)
  {
    match e
    case Template(_, es) => ExprsPart(es, k);
    case Array(es) => ExprsPart(es, k);
    case Sequence(es) => ExprsPart(es, k);
    case Object(ps) => PropPart(ps, k);
    case Call(_, args) => ExprsPart(args, k);
    case _ =>
  }

  lemma StmtPartCaptures(s: Stmt, k: Node)
    requires k in Parts(S(s)) && Captures(k)
    ensures StmtCaptures(s)
  {
    match s
    case Let(decls) => DeclPart(decls, k);
    case Block(body) => StmtsPart(body, k);
    case Switch(_, cases) => CasePart(cases, k); CaseIsCapturing(cases, k);
    case Try(block, handler, finalizer) =>
      StmtsPart(block, k);
      if handler.Some? { StmtsPart(handler.value.body, k); }
      if finalizer.Some? { StmtsPart(finalizer.value.body, k); }
    case _ =>
  }

  lemma CaseIsCapturing(cases: seq<Case>, k: Node)
    requires Captures(k)
    ensures forall i | 0 <= i < |cases| && InCase(cases[i], k) :: CaseCaptures(cases[i])
  {
    forall i | 0 <= i < |cases| && InCase(cases[i], k) ensures CaseCaptures(cases[i]) { StmtsPart(cases[i].body, k); }
  }

  lemma {:induction false} PathCaptures(p: seq<Node>, k: nat)
    requires IsPath(PartsOf(), p) && k < |p| && Captures(p[k])
    ensures Captures(p[0])
    decreases k
  {
    if k > 0 {
      assert p[(k - 1) + 1] in PartsOf()(p[k - 1]);
      assert Captures(p[k - 1]) by {
        if p[k - 1].E? { ExprPartCaptures(p[k - 1].e, p[k]); } else { StmtPartCaptures(p[k - 1].s, p[k]); }
      }
      hide Captures;
      PathCaptures(p, k - 1);
    }
  }

  /** The analysis says "captures" exactly when a function or a class is made, or `eval` is
      named, somewhere in the expression or statement and in no body of such a function. */
  lemma CapturesExactly(n: Node)
    ensures Captures(n) <==> HasSite(n)
  {
    if Captures(n) {
      match n case E(e) => ExprHasSite(e); case S(s) => StmtHasSite(s);
    }
    if HasSite(n) {
      var x :| Reach(PartsOf(), n, x) && Site(x);
      var p :| PathFrom(PartsOf(), n, x, p);
      PathCaptures(p, |p| - 1);
    }
  }
}
