/** How the statements of a loop relate: `continue` ends the body and not the loop, `break` ends
    the loop, and a `for` without a declaration is a `while`. */
module LoopLaws {
  import opened ModuleGraph
  import opened Ast
  import opened LoopSemantics

  /** A body that is a `continue` aimed at the loop is an empty body: the environment is
      copied, the update evaluated and the test made again, to the end of the loop. */
  lemma {:induction false} ContinueIsEmpty(w: World, fuel: nat, st: State, env: Loc, skip: bool, cond: Option<Expr>,
                                           update: Option<Expr>, target: Option<Name>, labels: seq<Name>, copy: bool)
    requires target.None? || target.value in labels
    ensures Run(w, fuel, st, env, Loop(skip, cond, update, Continue(target), labels, copy))
      == Run(w, fuel, st, env, Loop(skip, cond, update, Empty, labels, copy))
    decreases fuel, 2
  {
    if fuel > 0 {
      LoopRuns(w, fuel, st, env, skip, cond, update, Continue(target), labels, copy);
      LoopRuns(w, fuel, st, env, skip, cond, update, Empty, labels, copy);
      hide Run, RunIteration;
      var (t, st1) := if skip || cond.None? then (V(Bool(true)), st) else Run(w, fuel - 1, st, env, Eval(cond.value));
      IterationIsEmpty(w, fuel, st1, env, cond, update, target, labels, copy);
    }
  }

  lemma LoopRuns(w: World, fuel: nat, st: State, env: Loc, skip: bool, cond: Option<Expr>, update: Option<Expr>,
                 body: Stmt, labels: seq<Name>, copy: bool)
    requires fuel > 0
    ensures Run(w, fuel, st, env, Loop(skip, cond, update, body, labels, copy))
      == RunLoop(w, fuel, st, env, skip, cond, update, body, labels, copy)
  {
    hide RunLoop;
  }

  lemma {:induction false} IterationIsEmpty(w: World, fuel: nat, st: State, env: Loc, cond: Option<Expr>,
                                            update: Option<Expr>, target: Option<Name>, labels: seq<Name>, copy: bool)
    requires fuel > 0 && (target.None? || target.value in labels)
    ensures RunIteration(w, fuel, st, env, cond, update, Continue(target), labels, copy)
      == RunIteration(w, fuel, st, env, cond, update, Empty, labels, copy)
    decreases fuel, 1
  {
    if fuel > 1 {
      assert Run(w, fuel - 1, st, env, Exec(Continue(target), [])) == (Stop(Continues(target)), st);
      assert Run(w, fuel - 1, st, env, Exec(Empty, [])) == (Done, st);
    }
    hide Run, RunNext, CopyEnv;
    var next, at := if copy then CopyEnv(st, env) else st, if copy then |st.envs| else env;
    NextIsEmpty(w, fuel, next, at, cond, update, target, labels, copy);
  }

  lemma {:induction false} NextIsEmpty(w: World, fuel: nat, st: State, env: Loc, cond: Option<Expr>,
                                       update: Option<Expr>, target: Option<Name>, labels: seq<Name>, copy: bool)
    requires fuel > 0 && (target.None? || target.value in labels)
    ensures RunNext(w, fuel, st, env, cond, update, Continue(target), labels, copy)
      == RunNext(w, fuel, st, env, cond, update, Empty, labels, copy)
    decreases fuel, 0
  {
    hide Run;
    var (u, st1) := if update.None? then (V(Undef), st) else Run(w, fuel - 1, st, env, Eval(update.value));
    ContinueIsEmpty(w, fuel - 1, st1, env, false, cond, update, target, labels, copy);
  }

  /** A body that is a `break` ends the loop as soon as the test has succeeded. */
  lemma BreakEnds(w: World, fuel: nat, st: State, env: Loc, cond: Expr, update: Option<Expr>, labels: seq<Name>,
                  copy: bool)
    requires fuel > 1 && Run(w, fuel - 1, st, env, Eval(cond)).0.V?
    ensures Run(w, fuel, st, env, Loop(false, Some(cond), update, Break(None), labels, copy))
      == (Done, Run(w, fuel - 1, st, env, Eval(cond)).1)
  {
    LoopRuns(w, fuel, st, env, false, Some(cond), update, Break(None), labels, copy);
    BreakIteration(w, fuel, Run(w, fuel - 1, st, env, Eval(cond)).1, env, Some(cond), update, labels, copy);
    hide Run, RunIteration;
  }

  lemma BreakIteration(w: World, fuel: nat, st: State, env: Loc, cond: Option<Expr>, update: Option<Expr>,
                       labels: seq<Name>, copy: bool)
    requires fuel > 1
    ensures RunIteration(w, fuel, st, env, cond, update, Break(None), labels, copy) == (Done, st)
  {
    assert Run(w, fuel - 1, st, env, Exec(Break(None), [])) == (Stop(Breaks(None)), st);
    hide Run, RunNext, CopyEnv;
  }

  /** `for (; cond; ) body` does what `while (cond) body` does, labels included. */
  lemma WhileIsFor(w: World, fuel: nat, st: State, env: Loc, cond: Expr, body: Stmt, labels: seq<Name>)
    ensures Run(w, fuel, st, env, Exec(While(cond, body), labels)) == Run(w, fuel, st, env, Exec(For(None, Some(cond), None, body), labels))
  {
    if fuel > 0 {
      var s := For(None, Some(cond), None, body);
      assert RunStmt(w, fuel, st, env, s, labels) == RunFor(w, fuel, st, env, s, labels);
      assert RunStmt(w, fuel, st, env, While(cond, body), labels) == RunFor(w, fuel, st, env, s, labels) by { hide RunLoop; }
      hide RunStmt, RunFor;
    }
  }
}
