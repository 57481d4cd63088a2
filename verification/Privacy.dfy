/** Code that does not capture keeps its environments to itself: no function ever holds
    one of them, and only environments below them have them as parents. */
module Privacy {
  import opened ModuleGraph
  import opened Ast
  import opened LoopSemantics

  /** Nothing outside `hidden` leads into `hidden`. */
  ghost predicate Hidden(st: State, hidden: set<Loc>) {
    && |st.envs| > 0 && 0 !in hidden
    && (forall x | x in hidden :: x < |st.envs|)
    && (forall i | 0 <= i < |st.objs| && st.objs[i].Fun? :: st.objs[i].env < |st.envs| && st.objs[i].env !in hidden)
    && (forall b: Loc | b < |st.envs| && st.envs[b].parent.Some? :: st.envs[b].parent.value < |st.envs|)
    && (forall b: Loc | b < |st.envs| && st.envs[b].parent.Some? && st.envs[b].parent.value in hidden :: b in hidden)
  }

  /** A step in `env` from `st` to `st1` hides more: only new environments, and none when
      `env` itself is not hidden. */
  ghost predicate Kept(st: State, hidden: set<Loc>, env: Loc, st1: State, hidden1: set<Loc>) {
    && Hidden(st1, hidden1)
    && hidden <= hidden1 && (forall x | x in hidden1 && x !in hidden :: x >= |st.envs|)
    && (env !in hidden ==> hidden1 == hidden)
    && |st.envs| <= |st1.envs| && (forall e: Loc | e < |st.envs| :: st1.envs[e].parent == st.envs[e].parent)
  }

  ghost predicate DeclsQuiet(decls: seq<Declarator>) {
    forall i | 0 <= i < |decls| && decls[i].init.Some? :: !ExprCaptures(decls[i].init.value)
  }

  ghost predicate Quiet(t: Task) {
    match t
    case Eval(e) => !ExprCaptures(e)
    case EvalAll(es, _) => ExprsQuiet(es)
    case Exec(s, _) => !StmtCaptures(s)
    case ExecAll(ss) => StmtsQuiet(ss)
    case Declare(decls) => DeclsQuiet(decls)
    case Loop(_, cond, update, body, _, copy) =>
      !copy && (cond.Some? ==> !ExprCaptures(cond.value)) && (update.Some? ==> !ExprCaptures(update.value)) && !StmtCaptures(body)
    case Pick(cases, _, _) => forall i | 0 <= i < |cases| :: !CaseCaptures(cases[i])
    case Apply(_, _) => true
  }

  lemma KeptNothing(st: State, hidden: set<Loc>, env: Loc)
    requires Hidden(st, hidden)
    ensures Kept(st, hidden, env, st, hidden)
  {
  }

  lemma KeptThen(st: State, hidden: set<Loc>, env: Loc, st1: State, hidden1: set<Loc>, env1: Loc, st2: State,
                 hidden2: set<Loc>)
    requires Kept(st, hidden, env, st1, hidden1) && Kept(st1, hidden1, env1, st2, hidden2)
    requires env !in hidden ==> env1 !in hidden1
    ensures Kept(st, hidden, env, st2, hidden2)
  {
    hide Hidden;
  }

  /** Only bindings, plain objects and output change. */
  ghost predicate Tame(st: State, st1: State) {
    && |st.envs| == |st1.envs| && (forall b | 0 <= b < |st.envs| :: st1.envs[b].parent == st.envs[b].parent)
    && (forall i | 0 <= i < |st1.objs| && st1.objs[i].Fun? :: i < |st.objs| && st1.objs[i] == st.objs[i])
  }

  lemma TameKept(st: State, hidden: set<Loc>, env: Loc, st1: State)
    requires Hidden(st, hidden) && Tame(st, st1)
    ensures Kept(st, hidden, env, st1, hidden)
  {
  }

  lemma InitTame(st: State, e: Loc, n: Name, v: Val)
    ensures Tame(st, InitVar(st, e, n, v))
  {
  }

  lemma PutTame(st: State, e: Loc, r: Reference, v: Val)
    ensures Tame(st, PutRef(st, e, r, v).1)
  {
  }

  lemma CombineTame(e: Expr, vals: seq<Val>, st: State)
    ensures Tame(st, Combine(e, vals, st).1)
  {
  }

  /** A function object made in an environment that is not hidden. */
  lemma FunKept(st: State, hidden: set<Loc>, env: Loc, params: seq<Name>, body: seq<Stmt>)
    requires Hidden(st, hidden) && env !in hidden && env < |st.envs|
    ensures Kept(st, hidden, env, Alloc(st, Fun(params, body, env)), hidden)
  {
  }

  lemma {:induction false} MethodsKept(st: State, hidden: set<Loc>, env: Loc, methods: seq<Method>)
    requires Hidden(st, hidden) && env !in hidden && env < |st.envs|
    ensures Kept(st, hidden, env, MakeMethods(st, env, methods), hidden)
    decreases |methods|
  {
    KeptNothing(st, hidden, env);
    if methods != [] {
      var st1 := Alloc(st, Fun(methods[0].params, methods[0].body, env));
      FunKept(st, hidden, env, methods[0].params, methods[0].body);
      MethodsKept(st1, hidden, env, methods[1..]);
      KeptThen(st, hidden, env, st1, hidden, env, MakeMethods(st1, env, methods[1..]), hidden);
    }
  }

  lemma ClassKept(st: State, hidden: set<Loc>, env: Loc, methods: seq<Method>)
    requires Hidden(st, hidden) && env !in hidden && env < |st.envs|
    ensures Kept(st, hidden, env, MakeClass(st, env, methods), hidden)
  {
    MethodsKept(st, hidden, env, methods);
    var st1 := MakeMethods(st, env, methods);
    TameKept(st1, hidden, env, MakeClass(st, env, methods));
    hide Hidden, MakeMethods;
    KeptThen(st, hidden, env, st1, hidden, env, MakeClass(st, env, methods), hidden);
  }

  lemma {:induction false} HoistKept(st: State, hidden: set<Loc>, env: Loc, ss: seq<Stmt>)
    requires Hidden(st, hidden) && env < |st.envs| && (env in hidden ==> StmtsQuiet(ss))
    ensures Kept(st, hidden, env, Hoist(st, env, ss), hidden)
    decreases |ss|
  {
    KeptNothing(st, hidden, env);
    if ss != [] {
      if ss[0].FuncDecl? {
        assert StmtCaptures(ss[0]);
        var st0 := Alloc(st, Fun(ss[0].params, ss[0].body, env));
        var st1 := InitVar(st0, env, ss[0].name, Ref(|st.objs|));
        FunKept(st, hidden, env, ss[0].params, ss[0].body);
        InitTame(st0, env, ss[0].name, Ref(|st.objs|));
        TameKept(st0, hidden, env, st1);
        HoistKept(st1, hidden, env, ss[1..]);
        hide Hidden, StmtsQuiet;
        KeptThen(st, hidden, env, st0, hidden, env, st1, hidden);
        KeptThen(st, hidden, env, st1, hidden, env, Hoist(st1, env, ss[1..]), hidden);
      } else {
        HoistKept(st, hidden, env, ss[1..]);
      }
    }
  }

  /** What is hidden once a scope is opened below `env`: the new environment too, if `env` is. */
  function Deeper(st: State, hidden: set<Loc>, env: Loc): set<Loc> {
    if env in hidden then hidden + {|st.envs|} else hidden
  }

  lemma PushKept(st: State, hidden: set<Loc>, env: Loc, vars: map<Name, Slot>)
    requires Hidden(st, hidden) && env < |st.envs|
    ensures Kept(st, hidden, env, Push(st, env, vars), Deeper(st, hidden, env))
  {
  }

  lemma CopyKept(st: State, hidden: set<Loc>, env: Loc)
    requires Hidden(st, hidden) && env < |st.envs| && env !in hidden
    ensures Kept(st, hidden, env, CopyEnv(st, env), hidden)
  {
  }

  lemma EnterKept(st: State, hidden: set<Loc>, env: Loc, ss: seq<Stmt>, vars: map<Name, Slot>)
    requires Hidden(st, hidden) && env < |st.envs| && (env in hidden ==> StmtsQuiet(ss))
    ensures Kept(st, hidden, env, Enter(st, env, ss, vars), Deeper(st, hidden, env))
    ensures |st.envs| < |Enter(st, env, ss, vars).envs|
  {
    var st1, inner := Push(st, env, vars + Declared(ss)), |st.envs|;
    PushKept(st, hidden, env, vars + Declared(ss));
    HoistKept(st1, Deeper(st, hidden, env), inner, ss);
    assert inner !in hidden;
    hide Hidden, Hoist, StmtsQuiet;
    KeptThen(st, hidden, env, st1, Deeper(st, hidden, env), inner, Hoist(st1, inner, ss), Deeper(st, hidden, env));
  }

  // ── The interpreter keeps what is hidden hidden ──────────────────────────

  /** Run a task in `env`: hidden environments stay hidden, and so do those made below them. */
  lemma {:induction false} RunKept(w: World, fuel: nat, st: State, env: Loc, t: Task, hidden: set<Loc>)
    returns (h: set<Loc>)
    requires w.share && Hidden(st, hidden) && env < |st.envs| && (env in hidden ==> Quiet(t))
    ensures Kept(st, hidden, env, Run(w, fuel, st, env, t).1, h)
    decreases fuel, 9
  {
    if fuel == 0 {
      h := hidden;
      KeptNothing(st, hidden, env);
    } else {
      hide Hidden, Kept, RunExpr, RunAll, RunStmt, RunStmts, RunDecls, RunLoop, RunPick, RunApply;
      match t
      case Eval(e) => h := ExprKept(w, fuel, st, env, e, hidden);
      case EvalAll(es, done) => h := AllKept(w, fuel, st, env, es, done, hidden);
      case Exec(s, labels) => h := StmtKept(w, fuel, st, env, s, labels, hidden);
      case ExecAll(ss) => h := StmtsKept(w, fuel, st, env, ss, hidden);
      case Declare(decls) => h := DeclsKept(w, fuel, st, env, decls, hidden);
      case Loop(skip, cond, update, body, labels, copy) => h := LoopKept(w, fuel, st, env, skip, cond, update, body, labels, copy, hidden);
      case Pick(cases, i, v) => h := PickKept(w, fuel, st, env, cases, i, v, hidden);
      case Apply(f, args) => h := ApplyKept(w, fuel, st, env, f, args, hidden);
    }
  }

  /** One task, then another in the same environment. */
  lemma {:induction false} ThenKept(w: World, fuel: nat, st0: State, hidden0: set<Loc>, st: State, hidden: set<Loc>,
                                    env: Loc, t: Task) returns (h: set<Loc>)
    requires w.share && Kept(st0, hidden0, env, st, hidden) && env < |st0.envs| && (env in hidden0 ==> Quiet(t))
    ensures Kept(st0, hidden0, env, Run(w, fuel, st, env, t).1, h)
    decreases fuel, 10
  {
    h := RunKept(w, fuel, st, env, t, hidden);
    hide Hidden, Run, Quiet;
    KeptThen(st0, hidden0, env, st, hidden, env, Run(w, fuel, st, env, t).1, h);
  }

  lemma ThenTame(st0: State, hidden0: set<Loc>, st: State, hidden: set<Loc>, env: Loc, st1: State)
    requires Kept(st0, hidden0, env, st, hidden) && Tame(st, st1)
    ensures Kept(st0, hidden0, env, st1, hidden)
  {
    TameKept(st, hidden, env, st1);
    hide Hidden, Tame;
    KeptThen(st0, hidden0, env, st, hidden, env, st1, hidden);
  }

  /** Statements in a scope of their own. */
  lemma {:induction false} ScopeKept(w: World, fuel: nat, st0: State, hidden0: set<Loc>, st: State, hidden: set<Loc>, env: Loc,
                                     ss: seq<Stmt>, vars: map<Name, Slot>, t: Task) returns (h: set<Loc>)
    requires w.share && Kept(st0, hidden0, env, st, hidden) && env < |st0.envs|
    requires env in hidden0 ==> StmtsQuiet(ss) && Quiet(t)
    ensures Kept(st0, hidden0, env, Run(w, fuel, Enter(st, env, ss, vars), |st.envs|, t).1, h)
    decreases fuel, 10
  {
    var st1, inner, deeper := Enter(st, env, ss, vars), |st.envs|, Deeper(st, hidden, env);
    EnterKept(st, hidden, env, ss, vars);
    assert inner !in hidden && env < |st.envs|;
    h := RunKept(w, fuel, st1, inner, t, deeper);
    hide Hidden, Run, Quiet, Enter, StmtsQuiet;
    KeptThen(st, hidden, env, st1, deeper, inner, Run(w, fuel, st1, inner, t).1, h);
    KeptThen(st0, hidden0, env, st, hidden, env, Run(w, fuel, st1, inner, t).1, h);
  }

  lemma TargetQuiet(target: Expr)
    requires !ExprCaptures(target)
    ensures ExprsQuiet(TargetOperands(target))
  {
  }

  lemma {:induction false} AllKept(w: World, fuel: nat, st: State, env: Loc, es: seq<Expr>, done: seq<Val>,
                                   hidden: set<Loc>) returns (h: set<Loc>)
    requires fuel > 0 && w.share && Hidden(st, hidden) && env < |st.envs| && (env in hidden ==> ExprsQuiet(es))
    ensures Kept(st, hidden, env, RunAll(w, fuel, st, env, es, done).1, h)
    decreases fuel, 0
  {
    hide Hidden, Kept, Run;
    h := hidden;
    KeptNothing(st, hidden, env);
    if es != [] {
      h := RunKept(w, fuel - 1, st, env, Eval(es[0]), hidden);
      var (r, st1) := Run(w, fuel - 1, st, env, Eval(es[0]));
      if r.V? { h := ThenKept(w, fuel - 1, st, hidden, st1, h, env, EvalAll(es[1..], done + [r.v])); }
    }
  }

  lemma {:induction false} ExprKept(w: World, fuel: nat, st: State, env: Loc, e: Expr, hidden: set<Loc>)
    returns (h: set<Loc>)
    requires fuel > 0 && w.share && Hidden(st, hidden) && env < |st.envs| && (env in hidden ==> !ExprCaptures(e))
    ensures Kept(st, hidden, env, RunExpr(w, fuel, st, env, e).1, h)
    decreases fuel, 8
  {
    hide Hidden, Kept, Run, RunAssign, RunEval, Combine, GetRef, PutRef, ReadVar, MakeClass, Alloc;
    if IsStrict(e) {
      h := StrictKept(w, fuel, st, env, e, hidden);
      return;
    }
    h := hidden;
    KeptNothing(st, hidden, env);
    match e
    case Function(params, body) => FunKept(st, hidden, env, params, body);
    case Class(methods) => ClassKept(st, hidden, env, methods);
    case Logical(op, l, r) =>
      h := RunKept(w, fuel - 1, st, env, Eval(l), hidden);
      var (a, st1) := Run(w, fuel - 1, st, env, Eval(l));
      if a.V? && (match op case And => Truthy(a.v) case Or => !Truthy(a.v) case Nullish => a.v.Undef? || a.v.Nil?) {
        h := ThenKept(w, fuel - 1, st, hidden, st1, h, env, Eval(r));
      }
    case Conditional(test, cons, alt) =>
      h := RunKept(w, fuel - 1, st, env, Eval(test), hidden);
      var (a, st1) := Run(w, fuel - 1, st, env, Eval(test));
      if a.V? { h := ThenKept(w, fuel - 1, st, hidden, st1, h, env, Eval(if Truthy(a.v) then cons else alt)); }
    case Assign(target, op, value) =>
      if env in hidden { TargetQuiet(target); }
      h := RunKept(w, fuel - 1, st, env, EvalAll(TargetOperands(target), []), hidden);
      var (a, st1) := Run(w, fuel - 1, st, env, EvalAll(TargetOperands(target), []));
      if a.Vs? { h := AssignKept(w, fuel, st, hidden, st1, h, env, TargetOf(target, a.vs), op, value); }
    case Update(inc, prefix, target) =>
      if env in hidden { TargetQuiet(target); }
      h := RunKept(w, fuel - 1, st, env, EvalAll(TargetOperands(target), []), hidden);
      var (a, st1) := Run(w, fuel - 1, st, env, EvalAll(TargetOperands(target), []));
      if a.Vs? {
        var was := GetRef(st1, env, TargetOf(target, a.vs));
        if was.V? {
          var next := Num(NumOf(was.v) + if inc then 1 else -1);
          PutTame(st1, env, TargetOf(target, a.vs), next);
          ThenTame(st, hidden, st1, h, env, PutRef(st1, env, TargetOf(target, a.vs), next).1);
        }
      }
    case Call(func, args) => h := CallKept(w, fuel, st, env, func, args, hidden);
    case _ =>
  }

  lemma {:induction false} StrictKept(w: World, fuel: nat, st: State, env: Loc, e: Expr, hidden: set<Loc>)
    returns (h: set<Loc>)
    requires fuel > 0 && w.share && Hidden(st, hidden) && env < |st.envs| && (env in hidden ==> !ExprCaptures(e))
    ensures var (a, st1) := Run(w, fuel - 1, st, env, EvalAll(Operands(e), []));
      Kept(st, hidden, env, if a.Vs? then Combine(e, a.vs, st1).1 else st1, h)
    decreases fuel, 1
  {
    if env in hidden { OperandsQuiet(e); }
    hide Hidden, Kept, Run, Combine, Operands;
    h := RunKept(w, fuel - 1, st, env, EvalAll(Operands(e), []), hidden);
    var (a, st1) := Run(w, fuel - 1, st, env, EvalAll(Operands(e), []));
    if a.Vs? {
      CombineTame(e, a.vs, st1);
      ThenTame(st, hidden, st1, h, env, Combine(e, a.vs, st1).1);
    }
  }

  lemma {:induction false} CallKept(w: World, fuel: nat, st: State, env: Loc, func: Expr, args: seq<Expr>,
                                    hidden: set<Loc>) returns (h: set<Loc>)
    requires
      && fuel > 0
      && w.share
      && Hidden(st, hidden)
      && env < |st.envs|
      && (env in hidden ==> !ExprCaptures(Call(func, args)))
    ensures Kept(st, hidden, env, RunExpr(w, fuel, st, env, Call(func, args)).1, h)
    decreases fuel, 1
  {
    hide Hidden, Kept, Run, RunEval;
    h := RunKept(w, fuel - 1, st, env, Eval(func), hidden);
    var (f, st1) := Run(w, fuel - 1, st, env, Eval(func));
    if f.V? {
      h := ThenKept(w, fuel - 1, st, hidden, st1, h, env, EvalAll(args, []));
      var (vs, st2) := Run(w, fuel - 1, st1, env, EvalAll(args, []));
      if vs.Vs? {
        if func == Ident(EVAL) && f.v == EvalFn {
          h := EvalKept(w, fuel, st, hidden, st2, h, env, vs.vs);
        } else {
          h := ThenKept(w, fuel - 1, st, hidden, st2, h, env, Apply(f.v, vs.vs));
        }
      }
    }
  }

  /** `eval` is only reached from an environment that is not hidden. */
  lemma {:induction false} EvalKept(w: World, fuel: nat, st0: State, hidden0: set<Loc>, st: State, hidden: set<Loc>,
                                    env: Loc, args: seq<Val>) returns (h: set<Loc>)
    requires fuel > 0 && w.share && Kept(st0, hidden0, env, st, hidden) && env < |st0.envs| && env !in hidden0
    ensures Kept(st0, hidden0, env, RunEval(w, fuel, st, env, args).1, h)
    decreases fuel, 0
  {
    h := hidden;
    if args != [] {
      var ss := w.parse(args[0]);
      HoistKept(st, hidden, env, ss);
      KeptThen(st0, hidden0, env, st, hidden, env, Hoist(st, env, ss), hidden);
      hide Hidden, Run, Hoist;
      h := ThenKept(w, fuel - 1, st0, hidden0, Hoist(st, env, ss), hidden, env, ExecAll(ss));
    }
  }

  lemma {:induction false} AssignKept(w: World, fuel: nat, st0: State, hidden0: set<Loc>, st: State, hidden: set<Loc>, env: Loc,
                                      target: Reference, op: Option<BinOp>, value: Expr) returns (h: set<Loc>)
    requires
      && fuel > 0
      && w.share
      && Kept(st0, hidden0, env, st, hidden)
      && env < |st0.envs|
      && (env in hidden0 ==> !ExprCaptures(value))
    ensures Kept(st0, hidden0, env, RunAssign(w, fuel, st, env, target, op, value).1, h)
    decreases fuel, 0
  {
    hide Hidden, Kept, Run, GetRef, PutRef;
    h := hidden;
    var was := if op.None? then V(Undef) else GetRef(st, env, target);
    if was.V? {
      h := ThenKept(w, fuel - 1, st0, hidden0, st, h, env, Eval(value));
      var (b, st1) := Run(w, fuel - 1, st, env, Eval(value));
      if b.V? {
        var v := if op.None? then b.v else Operate(op.value, was.v, b.v);
        PutTame(st1, env, target, v);
        ThenTame(st0, hidden0, st1, h, env, PutRef(st1, env, target, v).1);
      }
    }
  }

  lemma {:induction false} StmtsKept(w: World, fuel: nat, st: State, env: Loc, ss: seq<Stmt>, hidden: set<Loc>)
    returns (h: set<Loc>)
    requires fuel > 0 && w.share && Hidden(st, hidden) && env < |st.envs| && (env in hidden ==> StmtsQuiet(ss))
    ensures Kept(st, hidden, env, RunStmts(w, fuel, st, env, ss).1, h)
    decreases fuel, 0
  {
    hide Hidden, Kept, Run;
    h := hidden;
    KeptNothing(st, hidden, env);
    if ss != [] {
      h := RunKept(w, fuel - 1, st, env, Exec(ss[0], []), hidden);
      var (r, st1) := Run(w, fuel - 1, st, env, Exec(ss[0], []));
      if r.Done? { h := ThenKept(w, fuel - 1, st, hidden, st1, h, env, ExecAll(ss[1..])); }
    }
  }

  lemma {:induction false} DeclsKept(w: World, fuel: nat, st: State, env: Loc, decls: seq<Declarator>, hidden: set<Loc>)
    returns (h: set<Loc>)
    requires fuel > 0 && w.share && Hidden(st, hidden) && env < |st.envs| && (env in hidden ==> DeclsQuiet(decls))
    ensures Kept(st, hidden, env, RunDecls(w, fuel, st, env, decls).1, h)
    decreases fuel, 0
  {
    hide Hidden, Kept, Run, InitVar;
    h := hidden;
    KeptNothing(st, hidden, env);
    if decls != [] {
      var d := decls[0];
      if d.init.Some? { h := RunKept(w, fuel - 1, st, env, Eval(d.init.value), hidden); }
      var (r, st1) := if d.init.None? then (V(Undef), st) else Run(w, fuel - 1, st, env, Eval(d.init.value));
      if r.V? {
        InitTame(st1, env, d.name, r.v);
        ThenTame(st, hidden, st1, h, env, InitVar(st1, env, d.name, r.v));
        h := ThenKept(w, fuel - 1, st, hidden, InitVar(st1, env, d.name, r.v), h, env, Declare(decls[1..]));
      }
    }
  }

  lemma {:induction false} IfKept(w: World, fuel: nat, st: State, env: Loc, test: Expr, cons: Stmt, alt: Option<Stmt>, labels: seq<Name>,
                                  hidden: set<Loc>) returns (h: set<Loc>)
    requires
      && fuel > 0
      && w.share
      && Hidden(st, hidden)
      && env < |st.envs|
      && (env in hidden ==> !StmtCaptures(If(test, cons, alt)))
    ensures Kept(st, hidden, env, RunStmt(w, fuel, st, env, If(test, cons, alt), labels).1, h)
    decreases fuel, 7
  {
    hide Hidden, Kept, Run;
    h := RunKept(w, fuel - 1, st, env, Eval(test), hidden);
    var (r, st1) := Run(w, fuel - 1, st, env, Eval(test));
    if r.V? {
      if Truthy(r.v) { h := ThenKept(w, fuel - 1, st, hidden, st1, h, env, Exec(cons, [])); }
      else if alt.Some? { h := ThenKept(w, fuel - 1, st, hidden, st1, h, env, Exec(alt.value, [])); }
    }
  }

  lemma {:induction false} StmtKept(w: World, fuel: nat, st: State, env: Loc, s: Stmt, labels: seq<Name>,
                                    hidden: set<Loc>) returns (h: set<Loc>)
    requires fuel > 0 && w.share && Hidden(st, hidden) && env < |st.envs| && (env in hidden ==> !StmtCaptures(s))
    ensures Kept(st, hidden, env, RunStmt(w, fuel, st, env, s, labels).1, h)
    decreases fuel, 8
  {
    hide Hidden, Kept, Run, RunFor, RunSwitch, RunTry, Enter, MakeClass, InitVar;
    h := hidden;
    KeptNothing(st, hidden, env);
    match s
    case ExprStmt(e) => h := RunKept(w, fuel - 1, st, env, Eval(e), hidden);
    case Throw(e) => h := RunKept(w, fuel - 1, st, env, Eval(e), hidden);
    case Return(value) => if value.Some? { h := RunKept(w, fuel - 1, st, env, Eval(value.value), hidden); }
    case Let(decls) => h := RunKept(w, fuel - 1, st, env, Declare(decls), hidden);
    case Block(body) => h := ScopeKept(w, fuel - 1, st, hidden, st, hidden, env, body, map[], ExecAll(body));
    case If(test, cons, alt) => h := IfKept(w, fuel, st, env, test, cons, alt, labels, hidden);
    case While(test, body) => h := RunKept(w, fuel - 1, st, env, Loop(false, Some(test), None, body, labels, false), hidden);
    case DoWhile(body, test) => h := RunKept(w, fuel - 1, st, env, Loop(true, Some(test), None, body, labels, false), hidden);
    case For(init, test, update, body) => h := ForKept(w, fuel, st, env, s, labels, hidden);
    case Switch(disc, cases) => h := SwitchKept(w, fuel, st, env, disc, cases, hidden);
    case Labeled(name, body) => h := RunKept(w, fuel - 1, st, env, Exec(body, labels + [name]), hidden);
    case Try(block, handler, finalizer) => h := TryKept(w, fuel, st, env, block, handler, finalizer, hidden);
    case ClassDecl(name, methods) =>
      ClassKept(st, hidden, env, methods);
      InitTame(MakeClass(st, env, methods), env, name, Ref(|st.objs| + |methods|));
      ThenTame(st, hidden, MakeClass(st, env, methods), hidden, env, InitVar(MakeClass(st, env, methods), env, name, Ref(|st.objs| + |methods|)));
    case _ =>
  }

  lemma {:induction false} ForKept(w: World, fuel: nat, st: State, env: Loc, s: Stmt, labels: seq<Name>,
                                   hidden: set<Loc>) returns (h: set<Loc>)
    requires
      && fuel > 0
      && w.share
      && Hidden(st, hidden)
      && env < |st.envs|
      && s.For?
      && (env in hidden ==> !StmtCaptures(s))
    ensures Kept(st, hidden, env, RunFor(w, fuel, st, env, s, labels).1, h)
    decreases fuel, 2
  {
    if s.init.Some? && s.init.value.Let? {
      assert env in hidden ==> DeclsQuiet(s.init.value.decls) && Quiet(Loop(false, s.cond, s.update, s.body1, labels, false));
      hide Hidden, Kept, Run, Quiet, DeclsQuiet;
      h := LetForKept(w, fuel, st, env, s.init.value.decls, s.cond, s.update, s.body1, labels, StmtCaptures(s), hidden);
    } else {
      hide Hidden, Kept, Run;
      h := hidden;
      KeptNothing(st, hidden, env);
      if s.init.Some? { h := RunKept(w, fuel - 1, st, env, Exec(s.init.value, []), hidden); }
      var (r, st1) := if s.init.None? then (Done, st) else Run(w, fuel - 1, st, env, Exec(s.init.value, []));
      if r.Done? { h := ThenKept(w, fuel - 1, st, hidden, st1, h, env, Loop(false, s.cond, s.update, s.body1, labels, false)); }
    }
  }

  lemma {:induction false} LetForKept(w: World, fuel: nat, st: State, env: Loc, decls: seq<Declarator>, cond: Option<Expr>, update: Option<Expr>,
                                      body: Stmt, labels: seq<Name>, copy: bool, hidden: set<Loc>) returns (h: set<Loc>)
    requires fuel > 0 && w.share && Hidden(st, hidden) && env < |st.envs|
    requires env in hidden ==> DeclsQuiet(decls) && !copy && Quiet(Loop(false, cond, update, body, labels, false))
    ensures Kept(st, hidden, env, RunLetFor(w, fuel, st, env, decls, cond, update, body, labels, copy).1, h)
    decreases fuel, 1
  {
    var inner, deeper := |st.envs|, Deeper(st, hidden, env);
    var st0 := Push(st, env, DeadNames(decls));
    PushKept(st, hidden, env, DeadNames(decls));
    assert inner < |st0.envs| && (env !in hidden ==> inner !in deeper);
    QuietDecls(decls);
    hide Quiet, DeclsQuiet, Run, RunLetLoop, Hidden;
    h := RunKept(w, fuel - 1, st0, inner, Declare(decls), deeper);
    var (r, st1) := Run(w, fuel - 1, st0, inner, Declare(decls));
    if r.Done? { h := LetLoopKept(w, fuel, st0, deeper, st1, h, inner, cond, update, body, labels, copy); }
    KeptThen(st, hidden, env, st0, deeper, inner, RunLetFor(w, fuel, st, env, decls, cond, update, body, labels, copy).1, h);
  }

  lemma {:induction false} LetLoopKept(w: World, fuel: nat, st0: State, hidden0: set<Loc>, st: State, hidden: set<Loc>, env: Loc,
                                       cond: Option<Expr>, update: Option<Expr>, body: Stmt, labels: seq<Name>, copy: bool) returns (h: set<Loc>)
    requires fuel > 0 && w.share && Kept(st0, hidden0, env, st, hidden) && env < |st0.envs|
    requires env in hidden0 ==> !copy && Quiet(Loop(false, cond, update, body, labels, false))
    ensures Kept(st0, hidden0, env, RunLetLoop(w, fuel, st, env, cond, update, body, labels, copy).1, h)
    decreases fuel, 0
  {
    var loop := Loop(false, cond, update, body, labels, copy);
    if copy {
      h := CopiedKept(w, fuel - 1, st0, hidden0, st, hidden, env, loop);
    } else {
      hide Hidden, Kept, Run;
      h := ThenKept(w, fuel - 1, st0, hidden0, st, hidden, env, loop);
    }
    hide Run;
  }

  lemma QuietDecls(decls: seq<Declarator>)
    ensures DeclsQuiet(decls) <==> Quiet(Declare(decls))
  {
  }

  lemma {:induction false} CopiedKept(w: World, fuel: nat, st0: State, hidden0: set<Loc>, st: State, hidden: set<Loc>,
                                      env: Loc, t: Task) returns (h: set<Loc>)
    requires w.share && Kept(st0, hidden0, env, st, hidden) && env < |st0.envs| && env !in hidden0
    ensures Kept(st0, hidden0, env, Run(w, fuel, CopyEnv(st, env), |st.envs|, t).1, h)
    decreases fuel, 10
  {
    var st1, inner := CopyEnv(st, env), |st.envs|;
    CopyKept(st, hidden, env);
    assert inner < |st1.envs| && inner !in hidden;
    KeptThen(st0, hidden0, env, st, hidden, env, st1, hidden);
    h := RunKept(w, fuel, st1, inner, t, hidden);
    hide Hidden, Run, CopyEnv;
    KeptThen(st0, hidden0, env, st1, hidden, inner, Run(w, fuel, st1, inner, t).1, h);
  }

  lemma {:induction false} LoopKept(w: World, fuel: nat, st: State, env: Loc, skip: bool, cond: Option<Expr>, update: Option<Expr>,
                                    body: Stmt, labels: seq<Name>, copy: bool, hidden: set<Loc>) returns (h: set<Loc>)
    requires fuel > 0 && w.share && Hidden(st, hidden) && env < |st.envs|
    requires env in hidden ==> Quiet(Loop(skip, cond, update, body, labels, copy))
    ensures Kept(st, hidden, env, RunLoop(w, fuel, st, env, skip, cond, update, body, labels, copy).1, h)
    decreases fuel, 3
  {
    h := hidden;
    KeptNothing(st, hidden, env);
    hide Hidden, Kept, Run, RunIteration;
    if !skip && cond.Some? { h := RunKept(w, fuel - 1, st, env, Eval(cond.value), hidden); }
    var (t, st1) := if skip || cond.None? then (V(Bool(true)), st) else Run(w, fuel - 1, st, env, Eval(cond.value));
    if t.V? && Truthy(t.v) { h := IterationKept(w, fuel, st, hidden, st1, h, env, cond, update, body, labels, copy); }
  }

  lemma {:induction false} IterationKept(w: World, fuel: nat, st0: State, hidden0: set<Loc>, st: State, hidden: set<Loc>, env: Loc,
                                         cond: Option<Expr>, update: Option<Expr>, body: Stmt, labels: seq<Name>, copy: bool) returns (h: set<Loc>)
    requires fuel > 0 && w.share && Kept(st0, hidden0, env, st, hidden) && env < |st0.envs|
    requires env in hidden0 ==> Quiet(Loop(false, cond, update, body, labels, copy))
    ensures Kept(st0, hidden0, env, RunIteration(w, fuel, st, env, cond, update, body, labels, copy).1, h)
    decreases fuel, 2
  {
    hide Hidden, Kept, Run, RunNext, CopyEnv;
    h := ThenKept(w, fuel - 1, st0, hidden0, st, hidden, env, Exec(body, []));
    var (r, st1) := Run(w, fuel - 1, st, env, Exec(body, []));
    if GoesOn(r, labels) {
      if copy {
        h := NextCopiedKept(w, fuel, st0, hidden0, st1, h, env, cond, update, body, labels);
      } else {
        h := NextKept(w, fuel, st0, hidden0, st1, h, env, cond, update, body, labels, false);
      }
    }
  }

  lemma {:induction false} NextCopiedKept(w: World, fuel: nat, st0: State, hidden0: set<Loc>, st: State, hidden: set<Loc>, env: Loc,
                                          cond: Option<Expr>, update: Option<Expr>, body: Stmt, labels: seq<Name>) returns (h: set<Loc>)
    requires fuel > 0 && w.share && Kept(st0, hidden0, env, st, hidden) && env < |st0.envs| && env !in hidden0
    ensures Kept(st0, hidden0, env, RunNext(w, fuel, CopyEnv(st, env), |st.envs|, cond, update, body, labels, true).1, h)
    decreases fuel, 1
  {
    var st1, inner := CopyEnv(st, env), |st.envs|;
    CopyKept(st, hidden, env);
    assert inner < |st1.envs| && inner !in hidden;
    KeptThen(st0, hidden0, env, st, hidden, env, st1, hidden);
    KeptNothing(st1, hidden, inner);
    hide Hidden, Run, CopyEnv, RunNext;
    h := NextKept(w, fuel, st1, hidden, st1, hidden, inner, cond, update, body, labels, true);
    KeptThen(st0, hidden0, env, st1, hidden, inner, RunNext(w, fuel, st1, inner, cond, update, body, labels, true).1, h);
  }

  lemma {:induction false} NextKept(w: World, fuel: nat, st0: State, hidden0: set<Loc>, st: State, hidden: set<Loc>, env: Loc,
                                    cond: Option<Expr>, update: Option<Expr>, body: Stmt, labels: seq<Name>, copy: bool) returns (h: set<Loc>)
    requires fuel > 0 && w.share && Kept(st0, hidden0, env, st, hidden) && env < |st0.envs|
    requires env in hidden0 ==> Quiet(Loop(false, cond, update, body, labels, copy))
    ensures Kept(st0, hidden0, env, RunNext(w, fuel, st, env, cond, update, body, labels, copy).1, h)
    decreases fuel, 0
  {
    hide Hidden, Kept, Run;
    h := hidden;
    if update.Some? { h := ThenKept(w, fuel - 1, st0, hidden0, st, hidden, env, Eval(update.value)); }
    var (u, st1) := if update.None? then (V(Undef), st) else Run(w, fuel - 1, st, env, Eval(update.value));
    if u.V? { h := ThenKept(w, fuel - 1, st0, hidden0, st1, h, env, Loop(false, cond, update, body, labels, copy)); }
  }

  /** What a switch does once its discriminant has the value `d`. */
  function RunCases(w: World, fuel: nat, st: State, env: Loc, cases: seq<Case>, d: Val): (Res, State)
    requires fuel > 0
  {
    var (p, st1) := Run(w, fuel - 1, Enter(st, env, CaseBodies(cases, 0), map[]), |st.envs|, Pick(cases, 0, d));
    if !p.V? then (p, st1)
    else
      var start := if p.v.Num? && p.v.n >= 0 then p.v.n else DefaultCase(cases, 0);
      var (r, st2) := Run(w, fuel - 1, st1, |st.envs|, ExecAll(CaseBodies(cases, start)));
      (if r == Stop(Breaks(None)) then Done else r, st2)
  }

  lemma SwitchUnfolds(w: World, fuel: nat, st: State, env: Loc, disc: Expr, cases: seq<Case>)
    requires fuel > 0
    ensures var (d, st1) := Run(w, fuel - 1, st, env, Eval(disc));
      RunSwitch(w, fuel, st, env, disc, cases) == if !d.V? then (d, st1) else RunCases(w, fuel, st1, env, cases, d.v)
  {
    hide Run, Enter, CaseBodies, DefaultCase;
  }

  lemma {:induction false} CasesKept(w: World, fuel: nat, st: State, env: Loc, cases: seq<Case>, d: Val,
                                     hidden: set<Loc>)
    returns (h: set<Loc>)
    requires fuel > 0 && w.share && Hidden(st, hidden) && env < |st.envs|
    requires env in hidden ==> forall j | 0 <= j < |cases| :: !CaseCaptures(cases[j])
    ensures Kept(st, hidden, env, RunCases(w, fuel, st, env, cases, d).1, h)
    decreases fuel, 1
  {
    if env in hidden { CaseBodiesQuiet(cases, 0); }
    var inner, bodies, deeper := |st.envs|, CaseBodies(cases, 0), Deeper(st, hidden, env);
    var st1 := Enter(st, env, bodies, map[]);
    EnterKept(st, hidden, env, bodies, map[]);
    assert (env !in hidden ==> inner !in deeper) && inner < |st1.envs|;
    KeptNothing(st1, deeper, inner);
    hide Hidden, Run, Enter, CaseBodies, RunCases;
    h := RunKept(w, fuel - 1, st1, inner, Pick(cases, 0, d), deeper);
    var (p, st2) := Run(w, fuel - 1, st1, inner, Pick(cases, 0, d));
    CasesUnfold(w, fuel, st, env, cases, d);
    if p.V? {
      var start := if p.v.Num? && p.v.n >= 0 then p.v.n else DefaultCase(cases, 0);
      if env in hidden { CaseBodiesQuiet(cases, start); }
      h := ThenKept(w, fuel - 1, st1, deeper, st2, h, inner, ExecAll(CaseBodies(cases, start)));
    }
    KeptThen(st, hidden, env, st1, deeper, inner, RunCases(w, fuel, st, env, cases, d).1, h);
  }

  lemma CasesUnfold(w: World, fuel: nat, st: State, env: Loc, cases: seq<Case>, d: Val)
    requires fuel > 0
    ensures var (p, st1) := Run(w, fuel - 1, Enter(st, env, CaseBodies(cases, 0), map[]), |st.envs|, Pick(cases, 0, d));
      RunCases(w, fuel, st, env, cases, d).1 == if !p.V? then st1
        else Run(w, fuel - 1, st1, |st.envs|, ExecAll(CaseBodies(cases, if p.v.Num? && p.v.n >= 0 then p.v.n else DefaultCase(cases, 0)))).1
  {
    hide Run, Enter, CaseBodies, DefaultCase;
  }

  lemma {:induction false} SwitchKept(w: World, fuel: nat, st: State, env: Loc, disc: Expr, cases: seq<Case>,
                                      hidden: set<Loc>) returns (h: set<Loc>)
    requires
      && fuel > 0
      && w.share
      && Hidden(st, hidden)
      && env < |st.envs|
      && (env in hidden ==> !StmtCaptures(Switch(disc, cases)))
    ensures Kept(st, hidden, env, RunSwitch(w, fuel, st, env, disc, cases).1, h)
    decreases fuel, 2
  {
    SwitchUnfolds(w, fuel, st, env, disc, cases);
    hide Run, RunSwitch, RunCases, Hidden;
    h := RunKept(w, fuel - 1, st, env, Eval(disc), hidden);
    var (d, st1) := Run(w, fuel - 1, st, env, Eval(disc));
    if d.V? {
      var h1 := CasesKept(w, fuel, st1, env, cases, d.v, h);
      KeptThen(st, hidden, env, st1, h, env, RunCases(w, fuel, st1, env, cases, d.v).1, h1);
      h := h1;
    }
  }

  lemma {:induction false} PickKept(w: World, fuel: nat, st: State, env: Loc, cases: seq<Case>, i: nat, v: Val,
                                    hidden: set<Loc>) returns (h: set<Loc>)
    requires fuel > 0 && w.share && Hidden(st, hidden) && env < |st.envs|
    requires env in hidden ==> forall j | 0 <= j < |cases| :: !CaseCaptures(cases[j])
    ensures Kept(st, hidden, env, RunPick(w, fuel, st, env, cases, i, v).1, h)
    decreases fuel, 0
  {
    hide Hidden, Kept, Run;
    h := hidden;
    KeptNothing(st, hidden, env);
    if i < |cases| {
      assert env in hidden ==> !CaseCaptures(cases[i]);
      if cases[i].test.Some? { h := RunKept(w, fuel - 1, st, env, Eval(cases[i].test.value), hidden); }
      var (t, st1) := if cases[i].test.None? then (Done, st) else Run(w, fuel - 1, st, env, Eval(cases[i].test.value));
      if !t.Stop? && t != V(v) { h := ThenKept(w, fuel - 1, st, hidden, st1, h, env, Pick(cases, i + 1, v)); }
    }
  }

  lemma {:induction false} TryKept(w: World, fuel: nat, st: State, env: Loc, block: seq<Stmt>, handler: Option<Handler>, finalizer: Option<Finalizer>,
                                   hidden: set<Loc>) returns (h: set<Loc>)
    requires
      && fuel > 0
      && w.share
      && Hidden(st, hidden)
      && env < |st.envs|
      && (env in hidden ==> !StmtCaptures(Try(block, handler, finalizer)))
    ensures Kept(st, hidden, env, RunTry(w, fuel, st, env, block, handler, finalizer).1, h)
    decreases fuel, 1
  {
    hide Hidden, Kept, Run, Enter;
    KeptNothing(st, hidden, env);
    h := ScopeKept(w, fuel - 1, st, hidden, st, hidden, env, block, map[], ExecAll(block));
    var (r, st1) := Run(w, fuel - 1, Enter(st, env, block, map[]), |st.envs|, ExecAll(block));
    var (r2, st2) := if r.Stop? && r.c.Throws? && handler.Some? then RunCatch(w, fuel, st1, env, handler.value, r.c.v) else (r, st1);
    if r.Stop? && r.c.Throws? && handler.Some? {
      var vars := if handler.value.param.Some? then map[handler.value.param.value := Live(r.c.v)] else map[];
      h := ScopeKept(w, fuel - 1, st, hidden, st1, h, env, handler.value.body, vars, ExecAll(handler.value.body));
    }
    if !(finalizer.None? || r2 == Stop(OutOfFuel)) {
      h := ScopeKept(w, fuel - 1, st, hidden, st2, h, env, finalizer.value.body, map[], ExecAll(finalizer.value.body));
    }
  }

  lemma {:induction false} ApplyKept(w: World, fuel: nat, st: State, env: Loc, f: Val, args: seq<Val>, hidden: set<Loc>)
    returns (h: set<Loc>)
    requires fuel > 0 && w.share && Hidden(st, hidden) && env < |st.envs|
    ensures Kept(st, hidden, env, RunApply(w, fuel, st, env, f, args).1, h)
    decreases fuel, 0
  {
    h := hidden;
    KeptNothing(st, hidden, env);
    if f.Print? {
      TameKept(st, hidden, env, st.(out := st.out + args));
    } else if f.EvalFn? && args != [] {
      KeptNothing(st, hidden, 0);
      h := ScopeKept(w, fuel - 1, st, hidden, st, hidden, 0, w.parse(args[0]), map[], ExecAll(w.parse(args[0])));
      hide Run, Enter, Hidden;
      assert h == hidden;
    } else if f.Ref? && f.loc < |st.objs| && st.objs[f.loc].Fun? {
      var fun := st.objs[f.loc];
      KeptNothing(st, hidden, fun.env);
      h := ScopeKept(w, fuel - 1, st, hidden, st, hidden, fun.env, fun.body, Bound(fun.params, args), ExecAll(fun.body));
      hide Run, Enter, Hidden;
      assert h == hidden;
    }
  }
}
