/** The part of the syntax tree the capture analysis is about, and the analysis itself. */
module Ast {
  import opened ModuleGraph

  datatype BinOp = Add | Sub | Mul | Lt | Le | Gt | Ge | EqEqEq | NeEqEq
  datatype UnOp = Neg | Not | TypeOf | Void
  datatype LogicalOp = And | Or | Nullish

  datatype Expr =
    | Undefined
    | Null
    | True
    | False
    | Number(n: int)
    | Str(s: string)
    | Ident(name: Name)
    | Function(params: seq<Name>, body: seq<Stmt>)
    | Class(methods: seq<Method>)
    | Template(quasis: seq<string>, exprs: seq<Expr>)
    | Array(items: seq<Expr>)
    | Object(props: seq<Prop>)
    | Sequence(exprs: seq<Expr>)
    | Logical(lop: LogicalOp, l: Expr, r: Expr)
    | Unary(uop: UnOp, inner: Expr)
    | Binary(op: BinOp, l: Expr, r: Expr)
    | Conditional(test: Expr, cons: Expr, alt: Expr)
    | Assign(target: Expr, aop: Option<BinOp>, value: Expr)
    | Update(inc: bool, prefix: bool, target: Expr)
    | Call(func: Expr, args: seq<Expr>)
    | Member(receiver: Expr, property: Name)
    | Index(receiver: Expr, key: Expr)

  datatype Prop = KeyValue(key: Expr, value: Expr) | Spread(e: Expr)
  datatype Method = Method(name: Name, params: seq<Name>, body: seq<Stmt>)
  datatype Declarator = Declarator(name: Name, init: Option<Expr>)
  datatype Case = Case(test: Option<Expr>, body: seq<Stmt>)
  datatype Handler = Handler(param: Option<Name>, body: seq<Stmt>)
  datatype Finalizer = Finalizer(body: seq<Stmt>)

  datatype Stmt =
    | ExprStmt(e: Expr)
    | Throw(e: Expr)
    | Return(value: Option<Expr>)
    | Let(decls: seq<Declarator>)
    | Block(body: seq<Stmt>)
    | If(test: Expr, cons: Stmt, alt: Option<Stmt>)
    | While(test: Expr, body1: Stmt)
    | DoWhile(body1: Stmt, test: Expr)
    | For(init: Option<Stmt>, cond: Option<Expr>, update: Option<Expr>, body1: Stmt)
    | Switch(disc: Expr, cases: seq<Case>)
    | Labeled(name: Name, body1: Stmt)
    | Try(block: seq<Stmt>, handler: Option<Handler>, finalizer: Option<Finalizer>)
    | Break(target: Option<Name>)
    | Continue(target: Option<Name>)
    | FuncDecl(name: Name, params: seq<Name>, body: seq<Stmt>)
    | ClassDecl(name: Name, methods: seq<Method>)
    | Empty

  const EVAL: Name := "eval"

  // ── Does evaluating it create something that holds on to the scope? ──────

  predicate ExprCaptures(e: Expr) {
    match e
    case Function(_, _) => true
    case Class(_) => true
    case Ident(n) => n == EVAL
    case Undefined => false
    case Null => false
    case True => false
    case False => false
    case Number(_) => false
    case Str(_) => false
    case Template(_, es) => exists i :: 0 <= i < |es| && ExprCaptures(es[i])
    case Array(es) => exists i :: 0 <= i < |es| && ExprCaptures(es[i])
    case Sequence(es) => exists i :: 0 <= i < |es| && ExprCaptures(es[i])
    case Object(ps) => exists i :: 0 <= i < |ps| && PropCaptures(ps[i])
    case Logical(_, l, r) => ExprCaptures(l) || ExprCaptures(r)
    case Unary(_, inner) => ExprCaptures(inner)
    case Binary(_, l, r) => ExprCaptures(l) || ExprCaptures(r)
    case Conditional(test, cons, alt) => ExprCaptures(test) || ExprCaptures(cons) || ExprCaptures(alt)
    case Assign(target, _, value) => ExprCaptures(target) || ExprCaptures(value)
    case Update(_, _, target) => ExprCaptures(target)
    case Call(func, args) => ExprCaptures(func) || exists i :: 0 <= i < |args| && ExprCaptures(args[i])
    case Member(receiver, _) => ExprCaptures(receiver)
    case Index(receiver, key) => ExprCaptures(receiver) || ExprCaptures(key)
  }

  predicate PropCaptures(p: Prop) {
    match p
    case KeyValue(key, value) => ExprCaptures(key) || ExprCaptures(value)
    case Spread(e) => ExprCaptures(e)
  }

  predicate CaseCaptures(c: Case) {
    || (c.test.Some? && ExprCaptures(c.test.value))
    || exists i :: 0 <= i < |c.body| && StmtCaptures(c.body[i])
  }

  predicate StmtCaptures(s: Stmt) {
    match s
    case FuncDecl(_, _, _) => true
    case ClassDecl(_, _) => true
    case ExprStmt(e) => ExprCaptures(e)
    case Throw(e) => ExprCaptures(e)
    case Return(value) => value.Some? && ExprCaptures(value.value)
    case Let(decls) => exists i :: 0 <= i < |decls| && decls[i].init.Some? && ExprCaptures(decls[i].init.value)
    case Block(body) => exists i :: 0 <= i < |body| && StmtCaptures(body[i])
    case If(test, cons, alt) => ExprCaptures(test) || StmtCaptures(cons) || (alt.Some? && StmtCaptures(alt.value))
    case While(test, body) => ExprCaptures(test) || StmtCaptures(body)
    case DoWhile(body, test) => ExprCaptures(test) || StmtCaptures(body)
    case For(init, test, update, body) =>
      || (init.Some? && StmtCaptures(init.value))
      || (test.Some? && ExprCaptures(test.value))
      || (update.Some? && ExprCaptures(update.value))
      || StmtCaptures(body)
    case Switch(disc, cases) => ExprCaptures(disc) || exists i :: 0 <= i < |cases| && CaseCaptures(cases[i])
    case Labeled(_, body) => StmtCaptures(body)
    case Try(block, handler, finalizer) =>
      || (exists i :: 0 <= i < |block| && StmtCaptures(block[i]))
      || (handler.Some? && exists i :: 0 <= i < |handler.value.body| && StmtCaptures(handler.value.body[i]))
      || (finalizer.Some? && exists i :: 0 <= i < |finalizer.value.body| && StmtCaptures(finalizer.value.body[i]))
    case Break(_) => false
    case Continue(_) => false
    case Empty => false
  }

  /** None of them captures. */
  ghost predicate ExprsQuiet(es: seq<Expr>) {
    forall i | 0 <= i < |es| :: !ExprCaptures(es[i])
  }

  ghost predicate StmtsQuiet(ss: seq<Stmt>) {
    forall i | 0 <= i < |ss| :: !StmtCaptures(ss[i])
  }

  // ── Nodes that evaluate their operands and then combine the values ───────

  function PropOperands(ps: seq<Prop>): seq<Expr> {
    if ps == [] then []
    else (match ps[0] case KeyValue(key, value) => [key, value] case Spread(e) => [e]) + PropOperands(ps[1..])
  }

  predicate IsStrict(e: Expr) {
    e.Template? || e.Array? || e.Object? || e.Sequence? || e.Unary? || e.Binary? || e.Member? || e.Index?
  }

  function Operands(e: Expr): seq<Expr> {
    match e
    case Template(_, es) => es
    case Array(es) => es
    case Sequence(es) => es
    case Object(ps) => PropOperands(ps)
    case Unary(_, inner) => [inner]
    case Binary(_, l, r) => [l, r]
    case Member(receiver, _) => [receiver]
    case Index(receiver, key) => [receiver, key]
    case _ => []
  }

  lemma {:induction false} PropOperandsQuiet(ps: seq<Prop>)
    requires forall i | 0 <= i < |ps| :: !PropCaptures(ps[i])
    ensures ExprsQuiet(PropOperands(ps))
  {
    if ps != [] {
      PropOperandsQuiet(ps[1..]);
      assert !PropCaptures(ps[0]);
    }
  }

  lemma OperandsQuiet(e: Expr)
    requires !ExprCaptures(e)
    ensures ExprsQuiet(Operands(e))
  {
    if e.Object? { PropOperandsQuiet(e.props); }
  }

  /** The statements of a switch from the `i`-th case on. */
  function CaseBodies(cases: seq<Case>, i: nat): seq<Stmt>
    decreases |cases| - i
  {
    if i >= |cases| then [] else cases[i].body + CaseBodies(cases, i + 1)
  }

  lemma {:induction false} CaseBodiesQuiet(cases: seq<Case>, i: nat)
    requires forall j | 0 <= j < |cases| :: !CaseCaptures(cases[j])
    ensures StmtsQuiet(CaseBodies(cases, i))
    decreases |cases| - i
  {
    if i < |cases| {
      CaseBodiesQuiet(cases, i + 1);
      assert !CaseCaptures(cases[i]);
    }
  }
}
