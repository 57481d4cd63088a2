/** What sharing saves: a loop that the analysis calls quiet, and whose parts open no scope of
    their own, makes one environment in all, however many iterations it has. */
module SharedLoops {
  import opened ModuleGraph
  import opened Reachability
  import opened Ast
  import opened CaptureSites
  import opened LoopSemantics

  // ── Code that makes no environment ───────────────────────────────────────

  /** Running the node itself may make an environment, or a function that does when called. */
  predicate Opens(n: Node) {
    match n
    case E(e) => e.Call? || e.Function? || e.Class?
    case S(s) =>
      s.Block? || s.Switch? || s.Try? || s.FuncDecl? || s.ClassDecl? || (s.For? && s.init.Some? && s.init.value.Let?)
  }

  ghost predicate Flat(n: Node) {
    forall x | Reach(PartsOf(), n, x) :: !Opens(x)
  }

  lemma FlatHere(n: Node)
    requires Flat(n)
    ensures !Opens(n)
  {
    ReachRefl(PartsOf(), n);
  }

  lemma FlatPart(n: Node, k: Node)
    requires Flat(n) && k in Parts(n)
    ensures Flat(k)
  {
    assert k in PartsOf()(n);
    forall x | Reach(PartsOf(), k, x) ensures !Opens(x) { ReachStep(PartsOf(), n, k, x); }
  }

  ghost predicate AllFlat(es: seq<Expr>) {
    forall e | e in es :: Flat(E(e))
  }

  ghost predicate FlatTask(t: Task) {
    match t
    case Eval(e) => Flat(E(e))
    case EvalAll(es, _) => AllFlat(es)
    case Exec(s, _) => Flat(S(s))
    case ExecAll(ss) => false
    case Declare(ds) => forall d | d in ds && d.init.Some? :: Flat(E(d.init.value))
    case Loop(_, cond, update, body, _, copy) =>
      !copy && (cond.Some? ==> Flat(E(cond.value))) && (update.Some? ==> Flat(E(update.value))) && Flat(S(body))
    case Pick(_, _, _) => false
    case Apply(_, _) => false
  }

  ghost predicate MakesNone(st: State, st1: State) {
    |st1.envs| == |st.envs|
  }

  lemma {:induction false} RunMakesNone(w: World, fuel: nat, st: State, env: Loc, t: Task)
    requires FlatTask(t)
    ensures MakesNone(st, Run(w, fuel, st, env, t).1)
    decreases fuel, 9
  {
    if fuel > 0 {
      match t
      case Eval(e) => ExprMakesNone(w, fuel, st, env, e);
      case EvalAll(es, done) => AllMakeNone(w, fuel, st, env, es, done);
      case Exec(s, labels) => StmtMakesNone(w, fuel, st, env, s, labels);
      case Declare(ds) => DeclsMakeNone(w, fuel, st, env, ds);
      case Loop(skip, cond, update, body, labels, copy) => LoopMakesNone(w, fuel, st, env, skip, cond, update, body, labels);
      case _ =>
    }
  }

  lemma {:induction false} AllMakeNone(w: World, fuel: nat, st: State, env: Loc, es: seq<Expr>, done: seq<Val>)
    requires fuel > 0 && AllFlat(es)
    ensures MakesNone(st, RunAll(w, fuel, st, env, es, done).1)
    decreases fuel, 0
  {
    hide Run, Flat;
    if es != [] {
      RunMakesNone(w, fuel - 1, st, env, Eval(es[0]));
      var (r, st1) := Run(w, fuel - 1, st, env, Eval(es[0]));
      if r.V? { RunMakesNone(w, fuel - 1, st1, env, EvalAll(es[1..], done + [r.v])); }
    }
  }

  lemma {:induction false} DeclsMakeNone(w: World, fuel: nat, st: State, env: Loc, ds: seq<Declarator>)
    requires fuel > 0 && FlatTask(Declare(ds))
    ensures MakesNone(st, RunDecls(w, fuel, st, env, ds).1)
    decreases fuel, 0
  {
    hide Run, Flat;
    if ds != [] {
      var (r, st1) := if ds[0].init.None? then (V(Undef), st) else Run(w, fuel - 1, st, env, Eval(ds[0].init.value));
      if ds[0].init.Some? { RunMakesNone(w, fuel - 1, st, env, Eval(ds[0].init.value)); }
      if r.V? { RunMakesNone(w, fuel - 1, InitVar(st1, env, ds[0].name, r.v), env, Declare(ds[1..])); }
    }
  }

  // ── Expressions ──────────────────────────────────────────────────────────

  lemma {:induction false} OneMakesNone(w: World, fuel: nat, st: State, env: Loc, n: Node, e: Expr)
    requires Flat(n) && E(e) in Parts(n)
    ensures MakesNone(st, Run(w, fuel, st, env, Eval(e)).1)
    decreases fuel, 10
  {
    FlatPart(n, E(e));
    RunMakesNone(w, fuel, st, env, Eval(e));
  }

  lemma FlatOperands(e: Expr)
    requires Flat(E(e)) && IsStrict(e)
    ensures AllFlat(Operands(e))
  {
    forall k | k in Operands(e) ensures Flat(E(k)) {
      OperandIsPart(e, k);
      FlatPart(E(e), E(k));
    }
  }

  lemma OperandIsPart(e: Expr, k: Expr)
    requires k in Operands(e)
    ensures E(k) in Parts(E(e))
  {
    match e
    case Template(_, es) => ExprsPart(es, E(k));
    case Array(es) => ExprsPart(es, E(k));
    case Sequence(es) => ExprsPart(es, E(k));
    case Object(ps) => PropOperandIn(ps, k); PropPart(ps, E(k));
    case _ =>
  }

  lemma {:induction false} PropOperandIn(ps: seq<Prop>, k: Expr)
    requires k in PropOperands(ps)
    ensures exists i :: 0 <= i < |ps| && InProp(ps[i], E(k))
  {
    var first := match ps[0] case KeyValue(key, value) => [key, value] case Spread(e) => [e];
    if k in first {
      assert InProp(ps[0], E(k));
    } else {
      PropOperandIn(ps[1..], k);
      var i :| 0 <= i < |ps[1..]| && InProp(ps[1..][i], E(k));
      assert InProp(ps[i + 1], E(k));
    }
  }

  lemma PutMakesNone(st: State, env: Loc, r: Reference, v: Val)
    ensures MakesNone(st, PutRef(st, env, r, v).1)
  {
  }

  lemma CombineMakesNone(e: Expr, vals: seq<Val>, st: State)
    ensures MakesNone(st, Combine(e, vals, st).1)
  {
  }

  lemma TargetFlat(n: Node, target: Expr)
    requires Flat(n) && E(target) in Parts(n)
    ensures AllFlat(TargetOperands(target))
  {
    FlatPart(n, E(target));
    forall k | k in TargetOperands(target) ensures Flat(E(k)) {
      if k != target { FlatPart(E(target), E(k)); }
    }
  }

  lemma {:induction false} ExprMakesNone(w: World, fuel: nat, st: State, env: Loc, e: Expr)
    requires fuel > 0 && Flat(E(e))
    ensures MakesNone(st, RunExpr(w, fuel, st, env, e).1)
    decreases fuel, 8
  {
    FlatHere(E(e));
    if IsStrict(e) {
      FlatOperands(e);
      hide Flat, Run, Combine;
      RunMakesNone(w, fuel - 1, st, env, EvalAll(Operands(e), []));
      var (a, st1) := Run(w, fuel - 1, st, env, EvalAll(Operands(e), []));
      if a.Vs? { CombineMakesNone(e, a.vs, st1); }
    } else {
      hide Flat, Run;
      match e
      case Logical(_, l, r) =>
        OneMakesNone(w, fuel - 1, st, env, E(e), l);
        OneMakesNone(w, fuel - 1, Run(w, fuel - 1, st, env, Eval(l)).1, env, E(e), r);
      case Conditional(test, cons, alt) =>
        OneMakesNone(w, fuel - 1, st, env, E(e), test);
        OneMakesNone(w, fuel - 1, Run(w, fuel - 1, st, env, Eval(test)).1, env, E(e), cons);
        OneMakesNone(w, fuel - 1, Run(w, fuel - 1, st, env, Eval(test)).1, env, E(e), alt);
      case Assign(target, op, value) => AssignMakesNone(w, fuel, st, env, e);
      case Update(_, _, target) =>
        TargetFlat(E(e), target);
        hide PutRef;
        RunMakesNone(w, fuel - 1, st, env, EvalAll(TargetOperands(target), []));
        var (a, st1) := Run(w, fuel - 1, st, env, EvalAll(TargetOperands(target), []));
        if a.Vs? {
          var was := GetRef(st1, env, TargetOf(target, a.vs));
          if was.V? { PutMakesNone(st1, env, TargetOf(target, a.vs), Num(NumOf(was.v) + if e.inc then 1 else -1)); }
        }
      case _ =>
    }
  }

  lemma {:induction false} AssignMakesNone(w: World, fuel: nat, st: State, env: Loc, e: Expr)
    requires fuel > 0 && Flat(E(e)) && e.Assign?
    ensures MakesNone(st, RunExpr(w, fuel, st, env, e).1)
    decreases fuel, 7
  {
    TargetFlat(E(e), e.target);
    hide Flat, Run, PutRef;
    RunMakesNone(w, fuel - 1, st, env, EvalAll(TargetOperands(e.target), []));
    var (a, st1) := Run(w, fuel - 1, st, env, EvalAll(TargetOperands(e.target), []));
    if a.Vs? {
      var r := TargetOf(e.target, a.vs);
      var was := if e.aop.None? then V(Undef) else GetRef(st1, env, r);
      OneMakesNone(w, fuel - 1, st1, env, E(e), e.value);
      var (b, st2) := Run(w, fuel - 1, st1, env, Eval(e.value));
      if was.V? && b.V? { PutMakesNone(st2, env, r, if e.aop.None? then b.v else Operate(e.aop.value, was.v, b.v)); }
    }
  }

  // ── Statements ───────────────────────────────────────────────────────────

  lemma {:induction false} InnerMakesNone(w: World, fuel: nat, st: State, env: Loc, n: Node, s: Stmt, labels: seq<Name>)
    requires Flat(n) && S(s) in Parts(n)
    ensures MakesNone(st, Run(w, fuel, st, env, Exec(s, labels)).1)
    decreases fuel, 10
  {
    FlatPart(n, S(s));
    RunMakesNone(w, fuel, st, env, Exec(s, labels));
  }

  lemma {:induction false} StmtMakesNone(w: World, fuel: nat, st: State, env: Loc, s: Stmt, labels: seq<Name>)
    requires fuel > 0 && Flat(S(s))
    ensures MakesNone(st, RunStmt(w, fuel, st, env, s, labels).1)
    decreases fuel, 8
  {
    FlatHere(S(s));
    hide Flat, Run;
    match s
    case ExprStmt(e) => OneMakesNone(w, fuel - 1, st, env, S(s), e);
    case Throw(e) => OneMakesNone(w, fuel - 1, st, env, S(s), e);
    case Return(value) => if value.Some? { OneMakesNone(w, fuel - 1, st, env, S(s), value.value); }
    case Let(ds) =>
      forall d | d in ds && d.init.Some? ensures Flat(E(d.init.value)) {
        DeclPart(ds, E(d.init.value));
        FlatPart(S(s), E(d.init.value));
      }
      RunMakesNone(w, fuel - 1, st, env, Declare(ds));
    case If(test, cons, alt) =>
      OneMakesNone(w, fuel - 1, st, env, S(s), test);
      var st1 := Run(w, fuel - 1, st, env, Eval(test)).1;
      InnerMakesNone(w, fuel - 1, st1, env, S(s), cons, []);
      if alt.Some? { InnerMakesNone(w, fuel - 1, st1, env, S(s), alt.value, []); }
    case While(test, body) =>
      FlatPart(S(s), E(test));
      FlatPart(S(s), S(body));
      RunMakesNone(w, fuel - 1, st, env, Loop(false, Some(test), None, body, labels, false));
    case DoWhile(body, test) =>
      FlatPart(S(s), E(test));
      FlatPart(S(s), S(body));
      RunMakesNone(w, fuel - 1, st, env, Loop(true, Some(test), None, body, labels, false));
    case For(_, _, _, _) => PlainForMakesNone(w, fuel, st, env, s, labels);
    case Labeled(name, body) => InnerMakesNone(w, fuel - 1, st, env, S(s), body, labels + [name]);
    case _ =>
  }

  /** A `for` statement whose head declares nothing. */
  lemma {:induction false} PlainForMakesNone(w: World, fuel: nat, st: State, env: Loc, s: Stmt, labels: seq<Name>)
    requires fuel > 0 && s.For? && Flat(S(s)) && !Opens(S(s))
    ensures MakesNone(st, RunFor(w, fuel, st, env, s, labels).1)
    decreases fuel, 7
  {
    hide Run;
    ForPartsFlat(s);
    hide Flat;
    if s.init.Some? { InnerMakesNone(w, fuel - 1, st, env, S(s), s.init.value, []); }
    var st1 := if s.init.None? then st else Run(w, fuel - 1, st, env, Exec(s.init.value, [])).1;
    RunMakesNone(w, fuel - 1, st1, env, Loop(false, s.cond, s.update, s.body1, labels, false));
  }

  lemma ForPartsFlat(s: Stmt)
    requires s.For? && Flat(S(s))
    ensures (s.cond.Some? ==> Flat(E(s.cond.value))) && (s.update.Some? ==> Flat(E(s.update.value))) && Flat(S(s.body1))
  {
    hide Flat;
    if s.cond.Some? { FlatPart(S(s), E(s.cond.value)); }
    if s.update.Some? { FlatPart(S(s), E(s.update.value)); }
    FlatPart(S(s), S(s.body1));
  }

  lemma {:induction false} LoopMakesNone(w: World, fuel: nat, st: State, env: Loc, skip: bool, cond: Option<Expr>,
                                         update: Option<Expr>, body: Stmt, labels: seq<Name>)
    requires fuel > 0 && FlatTask(Loop(skip, cond, update, body, labels, false))
    ensures MakesNone(st, RunLoop(w, fuel, st, env, skip, cond, update, body, labels, false).1)
    decreases fuel, 2
  {
    hide Run, Flat, RunIteration;
    var (t, st1) := if skip || cond.None? then (V(Bool(true)), st) else Run(w, fuel - 1, st, env, Eval(cond.value));
    if !skip && cond.Some? { RunMakesNone(w, fuel - 1, st, env, Eval(cond.value)); }
    IterationMakesNone(w, fuel, st1, env, cond, update, body, labels);
  }

  lemma {:induction false} IterationMakesNone(w: World, fuel: nat, st: State, env: Loc, cond: Option<Expr>,
                                              update: Option<Expr>, body: Stmt, labels: seq<Name>)
    requires fuel > 0 && FlatTask(Loop(false, cond, update, body, labels, false))
    ensures MakesNone(st, RunIteration(w, fuel, st, env, cond, update, body, labels, false).1)
    decreases fuel, 1
  {
    hide Run, Flat, RunNext, GoesOn;
    RunMakesNone(w, fuel - 1, st, env, Exec(body, []));
    NextMakesNone(w, fuel, Run(w, fuel - 1, st, env, Exec(body, [])).1, env, cond, update, body, labels);
  }

  lemma {:induction false} NextMakesNone(w: World, fuel: nat, st: State, env: Loc, cond: Option<Expr>,
                                         update: Option<Expr>, body: Stmt, labels: seq<Name>)
    requires fuel > 0 && FlatTask(Loop(false, cond, update, body, labels, false))
    ensures MakesNone(st, RunNext(w, fuel, st, env, cond, update, body, labels, false).1)
    decreases fuel, 0
  {
    hide Run, Flat;
    if update.Some? { RunMakesNone(w, fuel - 1, st, env, Eval(update.value)); }
    var st1 := if update.None? then st else Run(w, fuel - 1, st, env, Eval(update.value)).1;
    RunMakesNone(w, fuel - 1, st1, env, Loop(false, cond, update, body, labels, false));
  }

  // ── The loop over a `let` head ───────────────────────────────────────────

  /** A `for (let ...)` statement whose head, test, update and body open no scope. */
  ghost predicate FlatParts(s: Stmt) {
    s.For? && s.init.Some? && s.init.value.Let? && forall k | k in Parts(S(s)) :: Flat(k)
  }

  lemma HeadFlat(s: Stmt)
    requires FlatParts(s)
    ensures FlatTask(Declare(s.init.value.decls))
    ensures FlatTask(Loop(false, s.cond, s.update, s.body1, [], false))
  {
    var ds := s.init.value.decls;
    assert S(s.init.value) in Parts(S(s)) && S(s.body1) in Parts(S(s));
    if s.cond.Some? { assert E(s.cond.value) in Parts(S(s)); }
    if s.update.Some? { assert E(s.update.value) in Parts(S(s)); }
    hide Flat;
    forall d | d in ds && d.init.Some? ensures Flat(E(d.init.value)) {
      DeclPart(ds, E(d.init.value));
      FlatPart(S(s.init.value), E(d.init.value));
    }
  }

  lemma LetForMakesOne(w: World, fuel: nat, st: State, env: Loc, ds: seq<Declarator>, cond: Option<Expr>,
                       update: Option<Expr>, body: Stmt, labels: seq<Name>)
    requires fuel > 0 && FlatTask(Declare(ds)) && FlatTask(Loop(false, cond, update, body, [], false))
    ensures |RunLetFor(w, fuel, st, env, ds, cond, update, body, labels, false).1.envs| == |st.envs| + 1
  {
    hide Run, Flat;
    var st0 := Push(st, env, DeadNames(ds));
    assert |st0.envs| == |st.envs| + 1;
    RunMakesNone(w, fuel - 1, st0, |st.envs|, Declare(ds));
    var (r, st1) := Run(w, fuel - 1, st0, |st.envs|, Declare(ds));
    RunMakesNone(w, fuel - 1, st1, |st.envs|, Loop(false, cond, update, body, labels, false));
    hide Push;
  }

  /** If the analysis calls the loop quiet, the only environment made is the one of its head,
      whatever the number of iterations. */
  lemma SharedLoopMakesOne(w: World, fuel: nat, st: State, env: Loc, s: Stmt, labels: seq<Name>)
    requires fuel > 0 && w.share && FlatParts(s) && !HasSite(S(s))
    ensures |RunFor(w, fuel, st, env, s, labels).1.envs| == |st.envs| + 1
  {
    CapturesExactly(S(s));
    assert !StmtCaptures(s);
    HeadFlat(s);
    hide RunLetFor, Flat, HasSite, StmtCaptures, FlatParts;
    LetForMakesOne(w, fuel, st, env, s.init.value.decls, s.cond, s.update, s.body1, labels);
  }
}
