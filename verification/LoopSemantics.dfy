/** What programs of the modelled part of the language do. Environments and functions live
    on a heap; a value never holds an environment, only a function object does. The loop
    over a `let` head gives each iteration a fresh copy of its environment, or goes on in
    the one it has, as the analysis allows. */
module LoopSemantics {
  import opened ModuleGraph
  import opened Ast

  type Loc = nat

  datatype Key = At(n: int) | Named(s: string)

  datatype Val = Undef | Nil | Bool(b: bool) | Num(n: int) | Text(s: string) | Ref(loc: nat) | Print | EvalFn

  /** A binding before and after its declaration has been evaluated. */
  datatype Slot = Dead | Live(v: Val)

  datatype Env = Env(parent: Option<Loc>, vars: map<Name, Slot>)

  datatype Obj =
    | Plain(props: map<Key, Val>)
    | Fun(params: seq<Name>, body: seq<Stmt>, env: Loc)

  datatype State = State(envs: seq<Env>, objs: seq<Obj>, out: seq<Val>)

  datatype Completion = Returns(v: Val) | Throws(v: Val) | Breaks(target: Option<Name>) | Continues(target: Option<Name>) | OutOfFuel

  datatype Res = V(v: Val) | Vs(vs: seq<Val>) | Done | Stop(c: Completion)

  /** Whether loops whose head and body do not capture share one environment, and what
      the text given to `eval` parses to. */
  datatype World = World(share: bool, parse: Val -> seq<Stmt>)

  datatype Task =
    | Eval(e: Expr)
    | EvalAll(es: seq<Expr>, done: seq<Val>)
    | Exec(s: Stmt, labels: seq<Name>)
    | ExecAll(ss: seq<Stmt>)
    | Declare(decls: seq<Declarator>)
    | Loop(skip: bool, cond: Option<Expr>, update: Option<Expr>, body: Stmt, labels: seq<Name>, copy: bool)
    | Pick(cases: seq<Case>, i: nat, v: Val)
    | Apply(f: Val, args: seq<Val>)

  const REFERENCE_ERROR := Stop(Throws(Text("ReferenceError")))
  const TYPE_ERROR := Stop(Throws(Text("TypeError")))

  // ── Environments ─────────────────────────────────────────────────────────

  function Lookup(envs: seq<Env>, e: Loc, n: Name): Option<Loc>
    decreases e
  {
    if e >= |envs| then None
    else if n in envs[e].vars then Some(e)
    else if envs[e].parent.Some? && envs[e].parent.value < e then Lookup(envs, envs[e].parent.value, n)
    else None
  }

  function ReadVar(st: State, e: Loc, n: Name): Res {
    var at := Lookup(st.envs, e, n);
    if at.None? || at.value >= |st.envs| || n !in st.envs[at.value].vars then REFERENCE_ERROR
    else match st.envs[at.value].vars[n]
      case Dead => REFERENCE_ERROR
      case Live(v) => V(v)
  }

  /** Give `n` a value in the environment `e` itself. */
  function InitVar(st: State, e: Loc, n: Name, v: Val): State {
    if e < |st.envs| then st.(envs := st.envs[e := st.envs[e].(vars := st.envs[e].vars[n := Live(v)])]) else st
  }

  function WriteVar(st: State, e: Loc, n: Name, v: Val): (Res, State) {
    if ReadVar(st, e, n).V? then (V(v), InitVar(st, Lookup(st.envs, e, n).value, n, v)) else (REFERENCE_ERROR, st)
  }

  function Push(st: State, parent: Loc, vars: map<Name, Slot>): State {
    st.(envs := st.envs + [Env(Some(parent), vars)])
  }

  /** CreatePerIterationEnvironment. */
  function CopyEnv(st: State, e: Loc): State {
    if e < |st.envs| then st.(envs := st.envs + [st.envs[e]]) else Push(st, e, map[])
  }

  function Alloc(st: State, o: Obj): State {
    st.(objs := st.objs + [o])
  }

  // ── Blocks ───────────────────────────────────────────────────────────────

  function DeadNames(decls: seq<Declarator>): map<Name, Slot> {
    if decls == [] then map[] else DeadNames(decls[1..])[decls[0].name := Dead]
  }

  function Declared(ss: seq<Stmt>): map<Name, Slot> {
    if ss == [] then map[]
    else match ss[0]
      case Let(decls) => Declared(ss[1..]) + DeadNames(decls)
      case ClassDecl(name, _) => Declared(ss[1..])[name := Dead]
      case _ => Declared(ss[1..])
  }

  /** The function declarations of a block are bound when the block is entered. */
  function Hoist(st: State, e: Loc, ss: seq<Stmt>): State
    decreases |ss|
  {
    if ss == [] then st
    else
      var st1 := if ss[0].FuncDecl? then InitVar(Alloc(st, Fun(ss[0].params, ss[0].body, e)), e, ss[0].name, Ref(|st.objs|)) else st;
      Hoist(st1, e, ss[1..])
  }

  /** A new environment below `parent` for the statements `ss`; it is `|st.envs|`. */
  function Enter(st: State, parent: Loc, ss: seq<Stmt>, vars: map<Name, Slot>): State {
    Hoist(Push(st, parent, vars + Declared(ss)), |st.envs|, ss)
  }

  function MakeMethods(st: State, e: Loc, methods: seq<Method>): State
    decreases |methods|
  {
    if methods == [] then st
    else MakeMethods(Alloc(st, Fun(methods[0].params, methods[0].body, e)), e, methods[1..])
  }

  /** A class is an object of its methods, each a function of the scope around it. */
  function MakeClass(st: State, e: Loc, methods: seq<Method>): State {
    Alloc(MakeMethods(st, e, methods), Plain(ClassProps(|st.objs|, methods)))
  }

  function ClassProps(base: nat, methods: seq<Method>): map<Key, Val>
    decreases |methods|
  {
    if methods == [] then map[] else map[Named(methods[0].name) := Ref(base)] + ClassProps(base + 1, methods[1..])
  }

  // ── Values ───────────────────────────────────────────────────────────────

  predicate Truthy(v: Val) {
    match v
    case Undef => false
    case Nil => false
    case Bool(b) => b
    case Num(n) => n != 0
    case Text(s) => s != ""
    case _ => true
  }

  function Digits(n: nat): string {
    if n < 10 then ["0123456789"[n]] else Digits(n / 10) + ["0123456789"[n % 10]]
  }

  function TextOf(v: Val): string {
    match v
    case Undef => "undefined"
    case Nil => "null"
    case Bool(b) => if b then "true" else "false"
    case Num(n) => if n < 0 then "-" + Digits(-n) else Digits(n)
    case Text(s) => s
    case Ref(_) => "[object]"
    case Print => "[function]"
    case EvalFn => "[function]"
  }

  function NumOf(v: Val): int {
    match v
    case Num(n) => n
    case Bool(b) => if b then 1 else 0
    case _ => 0
  }

  function KeyOf(v: Val): Key {
    if v.Num? then At(v.n) else Named(TextOf(v))
  }

  function Operate(op: BinOp, a: Val, b: Val): Val {
    match op
    case Add => if a.Text? || b.Text? then Text(TextOf(a) + TextOf(b)) else Num(NumOf(a) + NumOf(b))
    case Sub => Num(NumOf(a) - NumOf(b))
    case Mul => Num(NumOf(a) * NumOf(b))
    case Lt => Bool(NumOf(a) < NumOf(b))
    case Le => Bool(NumOf(a) <= NumOf(b))
    case Gt => Bool(NumOf(a) > NumOf(b))
    case Ge => Bool(NumOf(a) >= NumOf(b))
    case EqEqEq => Bool(a == b)
    case NeEqEq => Bool(a != b)
  }

  function OperateUnary(op: UnOp, a: Val): Val {
    match op
    case Neg => Num(-NumOf(a))
    case Not => Bool(!Truthy(a))
    case TypeOf => Text(match a case Undef => "undefined" case Bool(_) => "boolean" case Num(_) => "number" case Text(_) => "string" case Nil => "object" case Ref(_) => "object" case Print => "function" case EvalFn => "function")
    case Void => Undef
  }

  function GetProp(st: State, o: Val, k: Key): Res {
    match o
    case Undef => TYPE_ERROR
    case Nil => TYPE_ERROR
    case Ref(l) => if l < |st.objs| && st.objs[l].Plain? && k in st.objs[l].props then V(st.objs[l].props[k]) else V(Undef)
    case _ => V(Undef)
  }

  function PutProp(st: State, o: Val, k: Key, v: Val): (Res, State) {
    match o
    case Undef => (TYPE_ERROR, st)
    case Nil => (TYPE_ERROR, st)
    case Ref(l) =>
      if l < |st.objs| && st.objs[l].Plain? then (V(v), st.(objs := st.objs[l := Plain(st.objs[l].props[k := v])])) else (V(v), st)
    case _ => (V(v), st)
  }

  function Join(quasis: seq<string>, vals: seq<Val>): string {
    if quasis == [] then "" else quasis[0] + (if vals == [] then "" else TextOf(vals[0]) + Join(quasis[1..], vals[1..]))
  }

  function Elements(vals: seq<Val>): map<Key, Val> {
    if vals == [] then map[] else Elements(vals[..|vals|-1])[At(|vals|-1) := vals[|vals|-1]]
  }

  function PropsOf(st: State, v: Val): map<Key, Val> {
    if v.Ref? && v.loc < |st.objs| && st.objs[v.loc].Plain? then st.objs[v.loc].props else map[]
  }

  function Properties(st: State, ps: seq<Prop>, vals: seq<Val>): map<Key, Val> {
    if ps == [] then map[]
    else match ps[0]
      case KeyValue(_, _) => if |vals| < 2 then map[] else map[KeyOf(vals[0]) := vals[1]] + Properties(st, ps[1..], vals[2..])
      case Spread(_) =>
        if |vals| < 1 then map[] else PropsOf(st, vals[0]) + Properties(st, ps[1..], vals[1..])
  }

  /** A strict node, once its operands have values. */
  function Combine(e: Expr, vals: seq<Val>, st: State): (Res, State) {
    match e
    case Template(quasis, _) => (V(Text(Join(quasis, vals))), st)
    case Array(_) => (V(Ref(|st.objs|)), Alloc(st, Plain(Elements(vals))))
    case Object(ps) => (V(Ref(|st.objs|)), Alloc(st, Plain(Properties(st, ps, vals))))
    case Sequence(_) => (V(if vals == [] then Undef else vals[|vals|-1]), st)
    case Unary(op, _) => (V(if |vals| == 1 then OperateUnary(op, vals[0]) else Undef), st)
    case Binary(op, _, _) => (V(if |vals| == 2 then Operate(op, vals[0], vals[1]) else Undef), st)
    case Member(_, p) => (if |vals| == 1 then GetProp(st, vals[0], Named(p)) else TYPE_ERROR, st)
    case Index(_, _) => (if |vals| == 2 then GetProp(st, vals[0], KeyOf(vals[1])) else TYPE_ERROR, st)
    case _ => (TYPE_ERROR, st)
  }

  // ── References ───────────────────────────────────────────────────────────

  datatype Reference = Variable(n: Name) | Property(o: Val, k: Key) | NoReference

  function TargetOperands(target: Expr): seq<Expr> {
    match target
    case Ident(_) => []
    case Member(o, _) => [o]
    case Index(o, k) => [o, k]
    case _ => [target]
  }

  function TargetOf(target: Expr, vals: seq<Val>): Reference {
    match target
    case Ident(n) => Variable(n)
    case Member(_, p) => if |vals| == 1 then Property(vals[0], Named(p)) else NoReference
    case Index(_, _) => if |vals| == 2 then Property(vals[0], KeyOf(vals[1])) else NoReference
    case _ => NoReference
  }

  function GetRef(st: State, e: Loc, r: Reference): Res {
    match r
    case Variable(n) => ReadVar(st, e, n)
    case Property(o, k) => GetProp(st, o, k)
    case NoReference => TYPE_ERROR
  }

  function PutRef(st: State, e: Loc, r: Reference, v: Val): (Res, State) {
    match r
    case Variable(n) => WriteVar(st, e, n, v)
    case Property(o, k) => PutProp(st, o, k, v)
    case NoReference => (TYPE_ERROR, st)
  }

  // ── The interpreter ──────────────────────────────────────────────────────

  /** `fuel` bounds the depth of the evaluation. */
  function Run(w: World, fuel: nat, st: State, env: Loc, t: Task): (Res, State)
    decreases fuel, 9
  {
    if fuel == 0 then (Stop(OutOfFuel), st)
    else match t
      case Eval(e) => RunExpr(w, fuel, st, env, e)
      case EvalAll(es, done) => RunAll(w, fuel, st, env, es, done)
      case Exec(s, labels) => RunStmt(w, fuel, st, env, s, labels)
      case ExecAll(ss) => RunStmts(w, fuel, st, env, ss)
      case Declare(decls) => RunDecls(w, fuel, st, env, decls)
      case Loop(skip, cond, update, body, labels, copy) => RunLoop(w, fuel, st, env, skip, cond, update, body, labels, copy)
      case Pick(cases, i, v) => RunPick(w, fuel, st, env, cases, i, v)
      case Apply(f, args) => RunApply(w, fuel, st, env, f, args)
  }

  function RunAll(w: World, fuel: nat, st: State, env: Loc, es: seq<Expr>, done: seq<Val>): (Res, State)
    requires fuel > 0
    decreases fuel, 0
  {
    if es == [] then (Vs(done), st)
    else
      var (r, st1) := Run(w, fuel - 1, st, env, Eval(es[0]));
      if r.V? then Run(w, fuel - 1, st1, env, EvalAll(es[1..], done + [r.v])) else (r, st1)
  }

  function RunExpr(w: World, fuel: nat, st: State, env: Loc, e: Expr): (Res, State)
    requires fuel > 0
    decreases fuel, 8
  {
    match e
    case Undefined => (V(Undef), st)
    case Null => (V(Nil), st)
    case True => (V(Bool(true)), st)
    case False => (V(Bool(false)), st)
    case Number(n) => (V(Num(n)), st)
    case Str(s) => (V(Text(s)), st)
    case Ident(n) => (ReadVar(st, env, n), st)
    case Function(params, body) => (V(Ref(|st.objs|)), Alloc(st, Fun(params, body, env)))
    case Class(methods) => (V(Ref(|st.objs| + |methods|)), MakeClass(st, env, methods))
    case Logical(op, l, r) =>
      var (a, st1) := Run(w, fuel - 1, st, env, Eval(l));
      if a.V? && (match op case And => Truthy(a.v) case Or => !Truthy(a.v) case Nullish => a.v.Undef? || a.v.Nil?)
      then Run(w, fuel - 1, st1, env, Eval(r)) else (a, st1)
    case Conditional(test, cons, alt) =>
      var (a, st1) := Run(w, fuel - 1, st, env, Eval(test));
      if a.V? then Run(w, fuel - 1, st1, env, Eval(if Truthy(a.v) then cons else alt)) else (a, st1)
    case Assign(target, op, value) =>
      var (a, st1) := Run(w, fuel - 1, st, env, EvalAll(TargetOperands(target), []));
      if !a.Vs? then (a, st1) else RunAssign(w, fuel, st1, env, TargetOf(target, a.vs), op, value)
    case Update(inc, prefix, target) =>
      var (a, st1) := Run(w, fuel - 1, st, env, EvalAll(TargetOperands(target), []));
      if !a.Vs? then (a, st1)
      else
        var was := GetRef(st1, env, TargetOf(target, a.vs));
        if !was.V? then (was, st1)
        else
          var next := Num(NumOf(was.v) + if inc then 1 else -1);
          var (b, st2) := PutRef(st1, env, TargetOf(target, a.vs), next);
          (if b.V? && !prefix then V(Num(NumOf(was.v))) else b, st2)
    case Call(func, args) =>
      var (f, st1) := Run(w, fuel - 1, st, env, Eval(func));
      if !f.V? then (f, st1)
      else
        var (vs, st2) := Run(w, fuel - 1, st1, env, EvalAll(args, []));
        if !vs.Vs? then (vs, st2)
        else if func == Ident(EVAL) && f.v == EvalFn then RunEval(w, fuel, st2, env, vs.vs)
        else Run(w, fuel - 1, st2, env, Apply(f.v, vs.vs))
    case _ =>
      var (a, st1) := Run(w, fuel - 1, st, env, EvalAll(Operands(e), []));
      if a.Vs? then Combine(e, a.vs, st1) else (a, st1)
  }

  function RunAssign(w: World, fuel: nat, st: State, env: Loc, target: Reference, op: Option<BinOp>, value: Expr): (Res, State)
    requires fuel > 0
    decreases fuel, 0
  {
    var was := if op.None? then V(Undef) else GetRef(st, env, target);
    if !was.V? then (was, st)
    else
      var (b, st1) := Run(w, fuel - 1, st, env, Eval(value));
      if b.V? then PutRef(st1, env, target, if op.None? then b.v else Operate(op.value, was.v, b.v)) else (b, st1)
  }

  /** Direct `eval`: its code runs in, and declares into, the scope it is called from. */
  function RunEval(w: World, fuel: nat, st: State, env: Loc, args: seq<Val>): (Res, State)
    requires fuel > 0
    decreases fuel, 0
  {
    if args == [] then (V(Undef), st)
    else
      var (r, st1) := Run(w, fuel - 1, Hoist(st, env, w.parse(args[0])), env, ExecAll(w.parse(args[0])));
      (if r.Stop? then r else V(Undef), st1)
  }

  function RunStmts(w: World, fuel: nat, st: State, env: Loc, ss: seq<Stmt>): (Res, State)
    requires fuel > 0
    decreases fuel, 0
  {
    if ss == [] then (Done, st)
    else
      var (r, st1) := Run(w, fuel - 1, st, env, Exec(ss[0], []));
      if r.Done? then Run(w, fuel - 1, st1, env, ExecAll(ss[1..])) else (r, st1)
  }

  function RunDecls(w: World, fuel: nat, st: State, env: Loc, decls: seq<Declarator>): (Res, State)
    requires fuel > 0
    decreases fuel, 0
  {
    if decls == [] then (Done, st)
    else
      var (r, st1) := if decls[0].init.None? then (V(Undef), st) else Run(w, fuel - 1, st, env, Eval(decls[0].init.value));
      if r.V? then Run(w, fuel - 1, InitVar(st1, env, decls[0].name, r.v), env, Declare(decls[1..])) else (r, st1)
  }

  function RunStmt(w: World, fuel: nat, st: State, env: Loc, s: Stmt, labels: seq<Name>): (Res, State)
    requires fuel > 0
    decreases fuel, 8
  {
    match s
    case ExprStmt(e) =>
      var (r, st1) := Run(w, fuel - 1, st, env, Eval(e));
      (if r.V? then Done else r, st1)
    case Throw(e) =>
      var (r, st1) := Run(w, fuel - 1, st, env, Eval(e));
      (if r.V? then Stop(Throws(r.v)) else r, st1)
    case Return(value) =>
      if value.None? then (Stop(Returns(Undef)), st)
      else
        var (r, st1) := Run(w, fuel - 1, st, env, Eval(value.value));
        (if r.V? then Stop(Returns(r.v)) else r, st1)
    case Let(decls) => Run(w, fuel - 1, st, env, Declare(decls))
    case Block(body) => Run(w, fuel - 1, Enter(st, env, body, map[]), |st.envs|, ExecAll(body))
    case If(test, cons, alt) =>
      var (r, st1) := Run(w, fuel - 1, st, env, Eval(test));
      if !r.V? then (r, st1)
      else if Truthy(r.v) then Run(w, fuel - 1, st1, env, Exec(cons, []))
      else if alt.Some? then Run(w, fuel - 1, st1, env, Exec(alt.value, []))
      else (Done, st1)
    case While(test, body) => Run(w, fuel - 1, st, env, Loop(false, Some(test), None, body, labels, false))
    case DoWhile(body, test) => Run(w, fuel - 1, st, env, Loop(true, Some(test), None, body, labels, false))
    case For(init, test, update, body) => RunFor(w, fuel, st, env, s, labels)
    case Switch(disc, cases) => RunSwitch(w, fuel, st, env, disc, cases)
    case Labeled(name, body) =>
      var (r, st1) := Run(w, fuel - 1, st, env, Exec(body, labels + [name]));
      (if r == Stop(Breaks(Some(name))) then Done else r, st1)
    case Try(block, handler, finalizer) => RunTry(w, fuel, st, env, block, handler, finalizer)
    case Break(target) => (Stop(Breaks(target)), st)
    case Continue(target) => (Stop(Continues(target)), st)
    case FuncDecl(_, _, _) => (Done, st)
    case ClassDecl(name, methods) => (Done, InitVar(MakeClass(st, env, methods), env, name, Ref(|st.objs| + |methods|)))
    case Empty => (Done, st)
  }

  /** The `for` statement. A `let` head gets an environment of its own, copied for each
      iteration unless the compiler may share it. */
  function RunFor(w: World, fuel: nat, st: State, env: Loc, s: Stmt, labels: seq<Name>): (Res, State)
    requires fuel > 0 && s.For?
    decreases fuel, 2
  {
    if s.init.Some? && s.init.value.Let? then
      RunLetFor(w, fuel, st, env, s.init.value.decls, s.cond, s.update, s.body1, labels, !w.share || StmtCaptures(s))
    else
      var (r, st1) := if s.init.None? then (Done, st) else Run(w, fuel - 1, st, env, Exec(s.init.value, []));
      if !r.Done? then (r, st1)
      else Run(w, fuel - 1, st1, env, Loop(false, s.cond, s.update, s.body1, labels, false))
  }

  function RunLetFor(w: World, fuel: nat, st: State, env: Loc, decls: seq<Declarator>, cond: Option<Expr>, update: Option<Expr>, body: Stmt,
                     labels: seq<Name>, copy: bool): (Res, State)
    requires fuel > 0
    decreases fuel, 1
  {
    var (r, st1) := Run(w, fuel - 1, Push(st, env, DeadNames(decls)), |st.envs|, Declare(decls));
    if r.Done? then RunLetLoop(w, fuel, st1, |st.envs|, cond, update, body, labels, copy) else (r, st1)
  }

  function RunLetLoop(w: World, fuel: nat, st: State, env: Loc, cond: Option<Expr>, update: Option<Expr>, body: Stmt,
                      labels: seq<Name>, copy: bool): (Res, State)
    requires fuel > 0
    decreases fuel, 0
  {
    if copy then Run(w, fuel - 1, CopyEnv(st, env), |st.envs|, Loop(false, cond, update, body, labels, true))
    else Run(w, fuel - 1, st, env, Loop(false, cond, update, body, labels, false))
  }

  /** Does a loop go on after its body has completed with `r`? */
  predicate GoesOn(r: Res, labels: seq<Name>) {
    r.Done? || (r.Stop? && r.c.Continues? && (r.c.target.None? || r.c.target.value in labels))
  }

  function RunLoop(w: World, fuel: nat, st: State, env: Loc, skip: bool, cond: Option<Expr>, update: Option<Expr>, body: Stmt,
                   labels: seq<Name>, copy: bool): (Res, State)
    requires fuel > 0
    decreases fuel, 2
  {
    var (t, st1) := if skip || cond.None? then (V(Bool(true)), st) else Run(w, fuel - 1, st, env, Eval(cond.value));
    if !t.V? then (t, st1)
    else if !Truthy(t.v) then (Done, st1)
    else RunIteration(w, fuel, st1, env, cond, update, body, labels, copy)
  }

  function RunIteration(w: World, fuel: nat, st: State, env: Loc, cond: Option<Expr>, update: Option<Expr>, body: Stmt,
                        labels: seq<Name>, copy: bool): (Res, State)
    requires fuel > 0
    decreases fuel, 1
  {
    var (r, st1) := Run(w, fuel - 1, st, env, Exec(body, []));
    if !GoesOn(r, labels) then (if r == Stop(Breaks(None)) then Done else r, st1)
    else if copy then RunNext(w, fuel, CopyEnv(st1, env), |st1.envs|, cond, update, body, labels, copy)
    else RunNext(w, fuel, st1, env, cond, update, body, labels, copy)
  }

  /** From the update to the end of the loop, in the environment of the next iteration. */
  function RunNext(w: World, fuel: nat, st: State, env: Loc, cond: Option<Expr>, update: Option<Expr>, body: Stmt,
                   labels: seq<Name>, copy: bool): (Res, State)
    requires fuel > 0
    decreases fuel, 0
  {
    var (u, st1) := if update.None? then (V(Undef), st) else Run(w, fuel - 1, st, env, Eval(update.value));
    if !u.V? then (u, st1) else Run(w, fuel - 1, st1, env, Loop(false, cond, update, body, labels, copy))
  }

  function DefaultCase(cases: seq<Case>, i: nat): nat
    decreases |cases| - i
  {
    if i >= |cases| || cases[i].test.None? then i else DefaultCase(cases, i + 1)
  }

  function RunSwitch(w: World, fuel: nat, st: State, env: Loc, disc: Expr, cases: seq<Case>): (Res, State)
    requires fuel > 0
    decreases fuel, 0
  {
    var (d, st1) := Run(w, fuel - 1, st, env, Eval(disc));
    if !d.V? then (d, st1)
    else
      var inner := |st1.envs|;
      var (p, st2) := Run(w, fuel - 1, Enter(st1, env, CaseBodies(cases, 0), map[]), inner, Pick(cases, 0, d.v));
      if !p.V? then (p, st2)
      else
        var start := if p.v.Num? && p.v.n >= 0 then p.v.n else DefaultCase(cases, 0);
        var (r, st3) := Run(w, fuel - 1, st2, inner, ExecAll(CaseBodies(cases, start)));
        (if r == Stop(Breaks(None)) then Done else r, st3)
  }

  /** The first case whose test equals `v`, or -1. */
  function RunPick(w: World, fuel: nat, st: State, env: Loc, cases: seq<Case>, i: nat, v: Val): (Res, State)
    requires fuel > 0
    decreases fuel, 0
  {
    if i >= |cases| then (V(Num(-1)), st)
    else
      var (t, st1) := if cases[i].test.None? then (Done, st) else Run(w, fuel - 1, st, env, Eval(cases[i].test.value));
      if t.Stop? then (t, st1)
      else if t == V(v) then (V(Num(i)), st1)
      else Run(w, fuel - 1, st1, env, Pick(cases, i + 1, v))
  }

  function RunTry(w: World, fuel: nat, st: State, env: Loc, block: seq<Stmt>, handler: Option<Handler>,
                  finalizer: Option<Finalizer>): (Res, State)
    requires fuel > 0
    decreases fuel, 1
  {
    var (r, st1) := Run(w, fuel - 1, Enter(st, env, block, map[]), |st.envs|, ExecAll(block));
    var (r2, st2) := if r.Stop? && r.c.Throws? && handler.Some? then RunCatch(w, fuel, st1, env, handler.value, r.c.v) else (r, st1);
    if finalizer.None? || r2 == Stop(OutOfFuel) then (r2, st2)
    else
      var (r3, st3) := Run(w, fuel - 1, Enter(st2, env, finalizer.value.body, map[]), |st2.envs|, ExecAll(finalizer.value.body));
      (if r3.Done? then r2 else r3, st3)
  }

  function RunCatch(w: World, fuel: nat, st: State, env: Loc, handler: Handler, v: Val): (Res, State)
    requires fuel > 0
    decreases fuel, 0
  {
    var vars := if handler.param.Some? then map[handler.param.value := Live(v)] else map[];
    Run(w, fuel - 1, Enter(st, env, handler.body, vars), |st.envs|, ExecAll(handler.body))
  }

  function Bound(params: seq<Name>, args: seq<Val>): map<Name, Slot> {
    if params == [] then map[]
    else map[params[0] := Live(if args == [] then Undef else args[0])] + Bound(params[1..], if args == [] then [] else args[1..])
  }

  function RunApply(w: World, fuel: nat, st: State, env: Loc, f: Val, args: seq<Val>): (Res, State)
    requires fuel > 0
    decreases fuel, 0
  {
    if f.Print? then (V(Undef), st.(out := st.out + args))
    else if f.EvalFn? then
      // Indirect `eval` runs in the global scope.
      if args == [] then (V(Undef), st)
      else
        var (r, st1) := Run(w, fuel - 1, Enter(st, 0, w.parse(args[0]), map[]), |st.envs|, ExecAll(w.parse(args[0])));
        (if r.Stop? && !r.c.Returns? then r else V(Undef), st1)
    else if f.Ref? && f.loc < |st.objs| && st.objs[f.loc].Fun? then
      var fun := st.objs[f.loc];
      var (r, st1) := Run(w, fuel - 1, Enter(st, fun.env, fun.body, Bound(fun.params, args)), |st.envs|, ExecAll(fun.body));
      (if r.Stop? && r.c.Returns? then V(r.c.v) else if r.Stop? then r else V(Undef), st1)
    else (TYPE_ERROR, st)
  }

  /** A whole program, from a global scope that binds `print` and `eval`. */
  function RunProgram(w: World, fuel: nat, program: seq<Stmt>): (Res, State) {
    var st := State([Env(None, map["print" := Live(Print), EVAL := Live(EvalFn)])], [], []);
    Run(w, fuel, Enter(st, 0, program, map[]), 1, ExecAll(program))
  }
}
