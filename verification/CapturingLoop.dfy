/** Why a loop that captures must copy: a closure made in one iteration tells one copy for
    each iteration from one environment that goes on. */
module CapturingLoop {
  import opened ModuleGraph
  import opened Ast
  import opened LoopSemantics

  // for (let i = 0; i < 1; i++) f = () => i;

  const I: Name := "i"
  const F: Name := "f"

  function Head(): seq<Declarator> { [Declarator(I, Some(Number(0)))] }

  function Test(): Expr { Binary(Lt, Ident(I), Number(1)) }

  function Step(): Expr { Update(true, false, Ident(I)) }

  function Body(): Stmt { ExprStmt(Assign(Ident(F), None, Function([], [Return(Some(Ident(I)))]))) }

  function Whole(): Stmt { For(Some(Let(Head())), Some(Test()), Some(Step()), Body()) }

  lemma TestRuns(w: World, fuel: nat, st: State, env: Loc, n: int)
    requires fuel >= 5 && ReadVar(st, env, I) == V(Num(n))
    ensures Run(w, fuel, st, env, Eval(Test())) == (V(Bool(n < 1)), st)
  {
    hide ReadVar;
    var es := [Ident(I), Number(1)];
    assert Operands(Test()) == es && es[1..] == [Number(1)] && es[1..][1..] == [];
    assert Run(w, fuel - 3, st, env, EvalAll([], [Num(n), Num(1)])) == (Vs([Num(n), Num(1)]), st);
    assert Run(w, fuel - 3, st, env, Eval(Number(1))) == (V(Num(1)), st);
    assert [Num(n)] + [Num(1)] == [Num(n), Num(1)] && [] + [Num(n)] == [Num(n)];
    assert Run(w, fuel - 2, st, env, EvalAll([Number(1)], [Num(n)])) == (Vs([Num(n), Num(1)]), st);
    assert Run(w, fuel - 2, st, env, Eval(Ident(I))) == (V(Num(n)), st);
    assert Run(w, fuel - 1, st, env, EvalAll(es, [])) == (Vs([Num(n), Num(1)]), st);
  }

  lemma StepRuns(w: World, fuel: nat, st: State, env: Loc, n: int)
    requires fuel >= 3 && ReadVar(st, env, I) == V(Num(n))
    ensures Run(w, fuel, st, env, Eval(Step())) == (V(Num(n)), WriteVar(st, env, I, Num(n + 1)).1)
  {
    hide ReadVar;
    assert Run(w, fuel - 1, st, env, EvalAll([], [])) == (Vs([]), st);
  }

  /** The body leaves a closure of the environment it ran in. */
  lemma BodyRuns(w: World, fuel: nat, st: State, env: Loc)
    requires fuel >= 5 && ReadVar(st, env, F).V?
    ensures var st1 := Alloc(st, Fun([], [Return(Some(Ident(I)))], env));
      Run(w, fuel, st, env, Exec(Body(), [])) == (Done, WriteVar(st1, env, F, Ref(|st.objs|)).1)
  {
    var e := Assign(Ident(F), None, Function([], [Return(Some(Ident(I)))]));
    var st1 := Alloc(st, Fun([], [Return(Some(Ident(I)))], env));
    assert ReadVar(st1, env, F).V?;
    hide ReadVar;
    assert Run(w, fuel - 2, st, env, EvalAll([], [])) == (Vs([]), st);
    assert Run(w, fuel - 2, st, env, Eval(e.value)) == (V(Ref(|st.objs|)), st1);
    assert RunAssign(w, fuel - 1, st, env, Variable(F), None, e.value) == WriteVar(st1, env, F, Ref(|st.objs|));
    assert RunExpr(w, fuel - 1, st, env, e) == WriteVar(st1, env, F, Ref(|st.objs|));
    assert Run(w, fuel - 1, st, env, Eval(e)) == WriteVar(st1, env, F, Ref(|st.objs|));
  }

  // ── The whole loop ───────────────────────────────────────────────────────

  /** A scope that declares `f`, and the environment of the head in it. */
  ghost predicate InHead(st: State, env: Loc, outer: Loc, i: int) {
    && outer < env < |st.envs| && st.envs[env] == Env(Some(outer), map[I := Live(Num(i))])
    && F in st.envs[outer].vars && st.envs[outer].vars[F].Live? && I !in st.envs[outer].vars
  }

  lemma HeadReads(st: State, env: Loc, outer: Loc, i: int)
    requires InHead(st, env, outer, i)
    ensures ReadVar(st, env, I) == V(Num(i)) && ReadVar(st, env, F).V?
    ensures Lookup(st.envs, env, I) == Some(env) && Lookup(st.envs, env, F) == Some(outer)
  {
    assert Lookup(st.envs, outer, F) == Some(outer);
  }

  /** What the loop leaves: `f` is a closure of the first iteration's environment. */
  function Closed(st: State, env: Loc, outer: Loc): State {
    InitVar(Alloc(st, Fun([], [Return(Some(Ident(I)))], env)), outer, F, Ref(|st.objs|))
  }

  /** With `i` at 1 the loop is over. */
  lemma LastTest(w: World, fuel: nat, st: State, env: Loc, outer: Loc, copy: bool)
    requires fuel >= 6 && InHead(st, env, outer, 1)
    ensures Run(w, fuel, st, env, Loop(false, Some(Test()), Some(Step()), Body(), [], copy)) == (Done, st)
  {
    HeadReads(st, env, outer, 1);
    TestRuns(w, fuel - 1, st, env, 1);
    hide InHead, Test, Step, Body, ReadVar, RunIteration;
    assert RunLoop(w, fuel, st, env, false, Some(Test()), Some(Step()), Body(), [], copy) == (Done, st);
  }

  lemma NextRuns(w: World, fuel: nat, st: State, env: Loc, outer: Loc, copy: bool)
    requires fuel >= 7 && InHead(st, env, outer, 0)
    ensures RunNext(w, fuel, st, env, Some(Test()), Some(Step()), Body(), [], copy) == (Done, InitVar(st, env, I, Num(1)))
  {
    HeadReads(st, env, outer, 0);
    StepRuns(w, fuel - 1, st, env, 0);
    var st1 := InitVar(st, env, I, Num(1));
    assert InHead(st1, env, outer, 1);
    assert WriteVar(st, env, I, Num(0 + 1)).1 == st1;
    LastTest(w, fuel - 1, st1, env, outer, copy);
    hide InHead, Test, Step, Body, ReadVar, InitVar, Run;
  }

  lemma IterationRuns(w: World, fuel: nat, st: State, env: Loc, outer: Loc, copy: bool)
    requires fuel >= 8 && InHead(st, env, outer, 0)
    ensures RunIteration(w, fuel, st, env, Some(Test()), Some(Step()), Body(), [], copy) == (Done, Ends(st, env, outer, copy))
  {
    HeadReads(st, env, outer, 0);
    BodyRuns(w, fuel - 1, st, env);
    var st1 := Closed(st, env, outer);
    var st2, next := if copy then CopyEnv(st1, env) else st1, if copy then |st1.envs| else env;
    assert InHead(st2, next, outer, 0);
    assert Run(w, fuel - 1, st, env, Exec(Body(), [])) == (Done, st1);
    NextRuns(w, fuel, st2, next, outer, copy);
    hide InHead, Test, Step, Body, ReadVar, Run, RunNext, Closed;
  }

  /** Where the loop ends: `i` is 1 in the next iteration's copy, or in the one environment. */
  function Ends(st: State, env: Loc, outer: Loc, copy: bool): State {
    var st1 := Closed(st, env, outer);
    if copy then InitVar(CopyEnv(st1, env), |st1.envs|, I, Num(1)) else InitVar(st1, env, I, Num(1))
  }

  lemma LoopRuns(w: World, fuel: nat, st: State, env: Loc, outer: Loc, copy: bool)
    requires fuel >= 8 && InHead(st, env, outer, 0)
    ensures Run(w, fuel, st, env, Loop(false, Some(Test()), Some(Step()), Body(), [], copy)) == (Done, Ends(st, env, outer, copy))
  {
    HeadReads(st, env, outer, 0);
    TestRuns(w, fuel - 1, st, env, 0);
    IterationRuns(w, fuel, st, env, outer, copy);
    hide InHead, Test, Step, Body, ReadVar, RunIteration, Ends;
    assert RunLoop(w, fuel, st, env, false, Some(Test()), Some(Step()), Body(), [], copy) == (Done, Ends(st, env, outer, copy));
  }

  lemma EndsReads(st: State, env: Loc, outer: Loc, copy: bool)
    requires InHead(st, env, outer, 0)
    ensures var st1 := Ends(st, env, outer, copy);
      && ReadVar(st1, outer, F) == V(Ref(|st.objs|))
      && |st.objs| < |st1.objs| && st1.objs[|st.objs|] == Fun([], [Return(Some(Ident(I)))], env)
      && ReadVar(st1, env, I) == V(Num(if copy then 0 else 1))
  {
    var st1 := Ends(st, env, outer, copy);
    assert I in st1.envs[env].vars && F in st1.envs[outer].vars;
    assert Lookup(st1.envs, env, I) == Some(env) && Lookup(st1.envs, outer, F) == Some(outer);
  }

  lemma WholeCaptures()
    ensures StmtCaptures(Whole())
  {
    var e := Assign(Ident(F), None, Function([], [Return(Some(Ident(I)))]));
    assert ExprCaptures(e.value);
    assert ExprCaptures(e);
    assert StmtCaptures(Body());
  }

  // ── The closure is called ────────────────────────────────────────────────

  const PRINT: Name := "print"

  /** print(f()); */
  function Show(): Stmt { ExprStmt(Call(Ident(PRINT), [Call(Ident(F), [])])) }

  function Closure(env: Loc): Obj { Fun([], [Return(Some(Ident(I)))], env) }

  /** A call of a closure over `env` reads the `i` of `env`. */
  lemma ClosureReads(w: World, fuel: nat, st: State, at: Loc, l: nat, env: Loc, v: Val)
    requires fuel >= 6 && l < |st.objs| && st.objs[l] == Closure(env) && ReadVar(st, env, I) == V(v)
    ensures Run(w, fuel, st, at, Apply(Ref(l), [])) == (V(v), Enter(st, env, [Return(Some(Ident(I)))], map[]))
  {
    var body := [Return(Some(Ident(I)))];
    var st1 := Enter(st, env, body, map[]);
    ParentReads(st, env, body, v);
    hide ReadVar, Enter;
    assert body[1..] == [];
    assert Run(w, fuel - 3, st1, |st.envs|, Eval(Ident(I))) == (V(v), st1);
    assert Run(w, fuel - 2, st1, |st.envs|, Exec(body[0], [])) == (Stop(Returns(v)), st1);
    assert Run(w, fuel - 1, st1, |st.envs|, ExecAll(body)) == (Stop(Returns(v)), st1);
  }

  lemma EnterPlain(st: State, env: Loc, body: seq<Stmt>)
    requires body == [Return(Some(Ident(I)))]
    ensures Enter(st, env, body, map[]) == Push(st, env, map[])
  {
    var st1 := Push(st, env, map[]);
    assert body[1..] == [] && Declared([]) == map[] && Declared(body) == map[] && map[] + Declared(body) == map[];
    assert Hoist(st1, |st.envs|, []) == st1;
  }

  lemma ParentReads(st: State, env: Loc, body: seq<Stmt>, v: Val)
    requires body == [Return(Some(Ident(I)))] && ReadVar(st, env, I) == V(v)
    ensures ReadVar(Enter(st, env, body, map[]), |st.envs|, I) == V(v)
  {
    var st1 := Push(st, env, map[]);
    EnterPlain(st, env, body);
    LookupKept(st.envs, st1.envs[|st.envs|], env, I);
    assert Lookup(st1.envs, |st.envs|, I) == Lookup(st.envs, env, I);
  }

  lemma {:induction false} LookupKept(envs: seq<Env>, more: Env, e: Loc, n: Name)
    requires e < |envs|
    ensures Lookup(envs + [more], e, n) == Lookup(envs, e, n)
    decreases e
  {
    if n !in envs[e].vars && envs[e].parent.Some? && envs[e].parent.value < e { LookupKept(envs, more, envs[e].parent.value, n); }
  }

  lemma CallRuns(w: World, fuel: nat, st: State, at: Loc, l: nat, env: Loc, v: Val)
    requires fuel >= 8 && l < |st.objs| && st.objs[l] == Closure(env) && ReadVar(st, env, I) == V(v)
    requires ReadVar(st, at, F) == V(Ref(l))
    ensures Run(w, fuel, st, at, Eval(Call(Ident(F), []))) == (V(v), Enter(st, env, [Return(Some(Ident(I)))], map[]))
  {
    ClosureReads(w, fuel - 1, st, at, l, env, v);
    hide ReadVar, Enter, RunApply;
    assert F != EVAL;
    assert Run(w, fuel - 1, st, at, Eval(Ident(F))) == (V(Ref(l)), st);
    assert Run(w, fuel - 1, st, at, EvalAll([], [])) == (Vs([]), st);
  }

  lemma ShowRuns(w: World, fuel: nat, st: State, at: Loc, l: nat, env: Loc, v: Val)
    requires fuel >= 11 && l < |st.objs| && st.objs[l] == Closure(env) && ReadVar(st, env, I) == V(v)
    requires ReadVar(st, at, F) == V(Ref(l)) && ReadVar(st, at, PRINT) == V(Print)
    ensures Run(w, fuel, st, at, Exec(Show(), [])).0 == Done
    ensures Run(w, fuel, st, at, Exec(Show(), [])).1.out == st.out + [v]
  {
    var st1 := Enter(st, env, [Return(Some(Ident(I)))], map[]);
    var call := Call(Ident(F), []);
    EnterPlain(st, env, [Return(Some(Ident(I)))]);
    CallRuns(w, fuel - 3, st, at, l, env, v);
    hide ReadVar, Enter;
    assert [call][1..] == [] && [] + [v] == [v] && PRINT != EVAL;
    assert Run(w, fuel - 3, st1, at, EvalAll([], [v])) == (Vs([v]), st1);
    assert Run(w, fuel - 2, st, at, EvalAll([call], [])) == (Vs([v]), st1);
    assert Run(w, fuel - 2, st, at, Eval(Ident(PRINT))) == (V(Print), st);
    assert Run(w, fuel - 2, st1, at, Apply(Print, [v])) == (V(Undef), st1.(out := st1.out + [v]));
    assert Run(w, fuel - 1, st, at, Eval(Call(Ident(PRINT), [call]))) == (V(Undef), st1.(out := st1.out + [v]));
  }

  // ── The statement and the program ────────────────────────────────────────

  const OUTER: Loc := 1

  /** The scope of a program that declares `f`, below the global one. */
  ghost predicate InScope(st: State) {
    && |st.envs| > 1 && PRINT in st.envs[0].vars && st.envs[0].vars[PRINT] == Live(Print)
    && st.envs[1].parent == Some(0) && PRINT !in st.envs[1].vars
    && F in st.envs[1].vars && st.envs[1].vars[F].Live? && I !in st.envs[1].vars
  }

  /** `f` is a closure of `env`, whose `i` is `n`. */
  ghost predicate Leaves(st: State, l: nat, env: Loc, n: int) {
    && ReadVar(st, OUTER, F) == V(Ref(l)) && l < |st.objs| && st.objs[l] == Closure(env)
    && ReadVar(st, env, I) == V(Num(n)) && ReadVar(st, OUTER, PRINT) == V(Print)
  }

  lemma HeadDeclared(w: World, fuel: nat, st: State)
    requires fuel >= 3 && InScope(st)
    ensures var st1 := Push(st, OUTER, map[I := Live(Num(0))]);
      && Run(w, fuel, Push(st, OUTER, DeadNames(Head())), |st.envs|, Declare(Head())) == (Done, st1)
      && InHead(st1, |st.envs|, OUTER, 0) && InHead(CopyEnv(st1, |st.envs|), |st1.envs|, OUTER, 0)
      && InScope(st1) && InScope(CopyEnv(st1, |st.envs|))
  {
    var head := Head();
    assert head[1..] == [] && DeadNames([]) == map[] && DeadNames(head) == map[I := Dead];
    var st0, st1 := Push(st, OUTER, map[I := Dead]), Push(st, OUTER, map[I := Live(Num(0))]);
    assert Run(w, fuel - 1, st0, |st.envs|, Eval(Number(0))) == (V(Num(0)), st0);
    assert map[I := Dead][I := Live(Num(0))] == map[I := Live(Num(0))];
    assert InitVar(st0, |st.envs|, I, Num(0)) == st1;
    assert Run(w, fuel - 1, st1, |st.envs|, Declare([])) == (Done, st1);
  }

  lemma EndsLeave(st: State, env: Loc, copy: bool)
    requires InHead(st, env, OUTER, 0) && InScope(st)
    ensures Leaves(Ends(st, env, OUTER, copy), |st.objs|, env, if copy then 0 else 1)
    ensures Ends(st, env, OUTER, copy).out == st.out
  {
    EndsReads(st, env, OUTER, copy);
    var st1 := Ends(st, env, OUTER, copy);
    assert st1.envs[0] == st.envs[0] && st1.envs[1].parent == Some(0) && PRINT !in st1.envs[1].vars;
    assert Lookup(st1.envs, 0, PRINT) == Some(0);
    assert Lookup(st1.envs, OUTER, PRINT) == Some(0);
  }

  /** The whole statement, when iterations copy and when they go on in one environment. */
  lemma ForLeaves(w: World, fuel: nat, st: State, copy: bool)
    requires fuel >= 10 && InScope(st)
    ensures var (r, st1) := RunLetFor(w, fuel, st, OUTER, Head(), Some(Test()), Some(Step()), Body(), [], copy);
      r == Done && st1.out == st.out && Leaves(st1, |st.objs|, if copy then |st.envs| + 1 else |st.envs|, if copy then 0 else 1)
  {
    HeadDeclared(w, fuel - 1, st);
    var st1 := Push(st, OUTER, map[I := Live(Num(0))]);
    var st2, env := if copy then CopyEnv(st1, |st.envs|) else st1, if copy then |st1.envs| else |st.envs|;
    LoopRuns(w, fuel - 1, st2, env, OUTER, copy);
    EndsLeave(st2, env, copy);
    assert st2.out == st.out && st2.objs == st.objs;
    hide Run, Leaves, InScope, InHead, Ends, CopyEnv;
  }

  /** The loop that captures, then `print(f())`: 0 when iterations copy their environment, as
      the language asks, and 1 when they go on in one. */
  lemma CopyMatters(w: World, fuel: nat, st: State, copy: bool)
    requires fuel >= 11 && InScope(st)
    ensures StmtCaptures(Whole())
    ensures var st1 := RunLetFor(w, fuel, st, OUTER, Head(), Some(Test()), Some(Step()), Body(), [], copy).1;
      var (r, st2) := Run(w, fuel, st1, OUTER, Exec(Show(), []));
      r == Done && st2.out == st.out + [Num(if copy then 0 else 1)]
  {
    WholeCaptures();
    ForLeaves(w, fuel, st, copy);
    var st1 := RunLetFor(w, fuel, st, OUTER, Head(), Some(Test()), Some(Step()), Body(), [], copy).1;
    hide Run, RunLetFor, InScope;
    ShowRuns(w, fuel, st1, OUTER, |st.objs|, if copy then |st.envs| + 1 else |st.envs|, Num(if copy then 0 else 1));
  }

  // let f; for (let i = 0; i < 1; i++) f = () => i; print(f());

  function Program(): seq<Stmt> {
    [Let([Declarator(F, None)]), Whole(), Show()]
  }

  /** The state in which the program's own scope has been entered and `f` declared. */
  function Opened(): State {
    State([Env(None, map["print" := Live(Print), EVAL := Live(EvalFn)]), Env(Some(0), map[F := Live(Undef)])], [], [])
  }

  lemma ProgramDeclares()
    ensures Enter(State([Opened().envs[0]], [], []), 0, Program(), map[])
      == State([Opened().envs[0], Env(Some(0), map[F := Dead])], [], [])
  {
    var p, let := Program(), [Declarator(F, None)];
    assert p[1..] == [Whole(), Show()] && p[1..][1..] == [Show()] && p[1..][1..][1..] == [] && let[1..] == [];
    assert Declared([Show()]) == map[] && Declared([Whole(), Show()]) == map[] && DeadNames(let) == map[F := Dead];
    assert Declared(p) == map[F := Dead] && map[] + Declared(p) == map[F := Dead];
    var st := State([Opened().envs[0], Env(Some(0), map[F := Dead])], [], []);
    assert Hoist(st, 1, [Show()]) == st && Hoist(st, 1, [Whole(), Show()]) == st;
    assert Hoist(st, 1, p) == st;
  }

  /** `let f;` */
  lemma ProgramOpens(w: World, fuel: nat)
    requires fuel >= 4
    ensures RunProgram(w, fuel, Program()) == Run(w, fuel - 1, Opened(), OUTER, ExecAll([Whole(), Show()]))
  {
    var p, let := Program(), [Declarator(F, None)];
    var st := State([Opened().envs[0], Env(Some(0), map[F := Dead])], [], []);
    ProgramDeclares();
    assert p[1..] == [Whole(), Show()] && let[1..] == [];
    assert map[F := Dead][F := Live(Undef)] == map[F := Live(Undef)];
    assert InitVar(st, OUTER, F, Undef) == Opened();
    assert RunProgram(w, fuel, p) == Run(w, fuel, st, OUTER, ExecAll(p)) by { hide Run; }
    hide Enter, InitVar, Whole, Show, RunProgram;
    assert Run(w, fuel - 3, Opened(), OUTER, Declare([])) == (Done, Opened());
    assert Run(w, fuel - 2, st, OUTER, Declare(let)) == (Done, Opened());
    assert Run(w, fuel - 1, st, OUTER, Exec(p[0], [])) == (Done, Opened());
    assert RunStmts(w, fuel, st, OUTER, p) == Run(w, fuel - 1, Opened(), OUTER, ExecAll(p[1..]));
    assert Run(w, fuel, st, OUTER, ExecAll(p)) == RunStmts(w, fuel, st, OUTER, p);
  }

  /** The statement copies, whether quiet loops share or not. */
  lemma WholeIsFor(w: World, fuel: nat, st: State)
    requires fuel >= 1
    ensures Run(w, fuel, st, OUTER, Exec(Whole(), []))
      == RunLetFor(w, fuel, st, OUTER, Head(), Some(Test()), Some(Step()), Body(), [], true)
  {
    WholeCaptures();
    var s := Whole();
    assert s.For? && s.init == Some(Let(Head())) && s.cond == Some(Test()) && s.update == Some(Step()) && s.body1 == Body();
    hide RunLetFor, Test, Step, Body, Head, Whole, StmtCaptures;
    assert RunFor(w, fuel, st, OUTER, s, []) == RunLetFor(w, fuel, st, OUTER, Head(), Some(Test()), Some(Step()), Body(), [], true);
    assert RunStmt(w, fuel, st, OUTER, s, []) == RunFor(w, fuel, st, OUTER, s, []);
  }

  /** Two statements that come to their ends. */
  lemma TwoRun(w: World, fuel: nat, st: State, one: Stmt, two: Stmt, st1: State, st2: State)
    requires fuel >= 4
    requires Run(w, fuel - 1, st, OUTER, Exec(one, [])) == (Done, st1)
    requires Run(w, fuel - 2, st1, OUTER, Exec(two, [])) == (Done, st2)
    ensures Run(w, fuel, st, OUTER, ExecAll([one, two])) == (Done, st2)
  {
    assert [one, two][1..] == [two] && [two][1..] == [];
    hide RunStmt;
    assert Run(w, fuel - 2, st2, OUTER, ExecAll([])) == (Done, st2);
    assert Run(w, fuel - 1, st1, OUTER, ExecAll([two])) == (Done, st2);
  }

  /** The program prints 0, whether loops that the analysis calls quiet share or copy: this
      one is not quiet. */
  lemma ProgramPrints(w: World, fuel: nat)
    requires fuel >= 15
    ensures var (r, st) := RunProgram(w, fuel, Program()); r == Done && st.out == [Num(0)]
  {
    OpenedScope();
    ProgramOpens(w, fuel);
    WholeIsFor(w, fuel - 2, Opened());
    hide *;
    WholePrints(w, fuel - 1, Opened());
    assert [] + [Num(0)] == [Num(0)];
  }

  lemma OpenedScope()
    ensures Opened().out == [] && InScope(Opened())
  {
  }

  lemma WholePrints(w: World, fuel: nat, st: State)
    requires fuel >= 14 && InScope(st)
    ensures var (r, st1) := Run(w, fuel, st, OUTER, ExecAll([Whole(), Show()])); r == Done && st1.out == st.out + [Num(0)]
  {
    hide *;
    ForLeaves(w, fuel - 1, st, true);
    WholeIsFor(w, fuel - 1, st);
    var st1 := RunLetFor(w, fuel - 1, st, OUTER, Head(), Some(Test()), Some(Step()), Body(), [], true).1;
    LeavesParts(st1, |st.objs|, |st.envs| + 1, 0);
    ShowRuns(w, fuel - 2, st1, OUTER, |st.objs|, |st.envs| + 1, Num(0));
    TwoRun(w, fuel, st, Whole(), Show(), st1, Run(w, fuel - 2, st1, OUTER, Exec(Show(), [])).1);
  }

  lemma LeavesParts(st: State, l: nat, env: Loc, n: int)
    requires Leaves(st, l, env, n)
    ensures ReadVar(st, OUTER, F) == V(Ref(l)) && l < |st.objs| && st.objs[l] == Closure(env)
    ensures ReadVar(st, env, I) == V(Num(n)) && ReadVar(st, OUTER, PRINT) == V(Print)
  {
  }
}
