/** Sharing a loop's environment when nothing in the loop captures changes nothing: step
    for step, a run that shares and a run that copies give the same results, with one
    environment of the first standing for the current copy of the second. */
module LoopSharing {
  import opened ModuleGraph
  import opened Ast
  import opened LoopSemantics
  import opened Privacy

  /** Which environment of the copying run an environment of the sharing run stands for. */
  type Match = map<Loc, Loc>

  ghost predicate EnvsMatch(m: Match, a: Env, b: Env) {
    && a.vars == b.vars
    && (a.parent.None? <==> b.parent.None?)
    && (a.parent.Some? ==> a.parent.value in m && m[a.parent.value] == b.parent.value)
  }

  ghost predicate ObjsMatch(m: Match, a: Obj, b: Obj) {
    match a
    case Plain(_) => a == b
    case Fun(params, body, env) => b.Fun? && b.params == params && b.body == body && env in m && m[env] == b.env
  }

  /** Parents come before their children. */
  ghost predicate Ordered(st: State) {
    forall e: Loc | e < |st.envs| && st.envs[e].parent.Some? :: st.envs[e].parent.value < e
  }

  ghost predicate Injective(m: Match) {
    forall x, y | x in m && y in m && m[x] == m[y] :: x == y
  }

  ghost predicate Alike(m: Match, a: State, b: State) {
    && Ordered(a) && Ordered(b) && Injective(m)
    && 0 in m && m[0] == 0
    && a.out == b.out
    && |a.objs| == |b.objs| && (forall i | 0 <= i < |a.objs| :: ObjsMatch(m, a.objs[i], b.objs[i]))
    && (forall e | e in m :: e < |a.envs| && m[e] < |b.envs|)
    && (forall e | e in m :: EnvsMatch(m, a.envs[e], b.envs[m[e]]))
  }

  ghost predicate Extends(m: Match, m1: Match) {
    forall e | e in m :: e in m1 && m1[e] == m[e]
  }

  /** Both runs do the same from here to there. */
  ghost predicate Same(m: Match, ra: (Res, State), rb: (Res, State), m1: Match) {
    ra.0 == rb.0 && Alike(m1, ra.1, rb.1) && Extends(m, m1)
  }

  // ── Reading and writing ──────────────────────────────────────────────────

  lemma {:induction false} LookupAlike(m: Match, a: State, b: State, e: Loc, n: Name)
    requires Alike(m, a, b) && e in m
    ensures var x, y := Lookup(a.envs, e, n), Lookup(b.envs, m[e], n);
      && (x.None? <==> y.None?)
      && (x.Some? ==> x.value in m && m[x.value] == y.value && n in a.envs[x.value].vars)
    decreases e
  {
    assert EnvsMatch(m, a.envs[e], b.envs[m[e]]);
    if n !in a.envs[e].vars && a.envs[e].parent.Some? {
      LookupAlike(m, a, b, a.envs[e].parent.value, n);
    }
  }

  lemma ReadAlike(m: Match, a: State, b: State, e: Loc, n: Name)
    requires Alike(m, a, b) && e in m
    ensures ReadVar(a, e, n) == ReadVar(b, m[e], n)
  {
    LookupAlike(m, a, b, e, n);
    hide Ordered, Injective, ObjsMatch, Lookup;
  }

  lemma InitAlike(m: Match, a: State, b: State, e: Loc, n: Name, v: Val)
    requires Alike(m, a, b) && e in m
    ensures Alike(m, InitVar(a, e, n, v), InitVar(b, m[e], n, v))
  {
    hide ObjsMatch;
    var a1, b1 := InitVar(a, e, n, v), InitVar(b, m[e], n, v);
    forall x | x in m ensures EnvsMatch(m, a1.envs[x], b1.envs[m[x]]) {
      assert EnvsMatch(m, a.envs[x], b.envs[m[x]]);
    }
  }

  lemma WriteAlike(m: Match, a: State, b: State, e: Loc, n: Name, v: Val)
    requires Alike(m, a, b) && e in m
    ensures WriteVar(a, e, n, v).0 == WriteVar(b, m[e], n, v).0
    ensures Alike(m, WriteVar(a, e, n, v).1, WriteVar(b, m[e], n, v).1)
  {
    ReadAlike(m, a, b, e, n);
    LookupAlike(m, a, b, e, n);
    if ReadVar(a, e, n).V? { InitAlike(m, a, b, Lookup(a.envs, e, n).value, n, v); }
    hide Alike, InitVar;
  }

  // ── Objects ──────────────────────────────────────────────────────────────

  lemma AllocAlike(m: Match, a: State, b: State, o: Obj, p: Obj)
    requires Alike(m, a, b) && ObjsMatch(m, o, p)
    ensures Alike(m, Alloc(a, o), Alloc(b, p))
  {
    hide EnvsMatch, ObjsMatch, Injective;
  }

  lemma {:induction false} MethodsAlike(m: Match, a: State, b: State, e: Loc, methods: seq<Method>)
    requires Alike(m, a, b) && e in m
    ensures Alike(m, MakeMethods(a, e, methods), MakeMethods(b, m[e], methods))
    decreases |methods|
  {
    if methods != [] {
      var o, p := Fun(methods[0].params, methods[0].body, e), Fun(methods[0].params, methods[0].body, m[e]);
      AllocAlike(m, a, b, o, p);
      hide Alike;
      MethodsAlike(m, Alloc(a, o), Alloc(b, p), e, methods[1..]);
    }
  }

  lemma ClassAlike(m: Match, a: State, b: State, e: Loc, methods: seq<Method>)
    requires Alike(m, a, b) && e in m
    ensures Alike(m, MakeClass(a, e, methods), MakeClass(b, m[e], methods)) && |a.objs| == |b.objs|
  {
    MethodsAlike(m, a, b, e, methods);
    AllocAlike(m, MakeMethods(a, e, methods), MakeMethods(b, m[e], methods), Plain(ClassProps(|a.objs|, methods)), Plain(ClassProps(|b.objs|, methods)));
    hide MakeMethods, Alloc;
  }

  lemma GetAlike(m: Match, a: State, b: State, o: Val, k: Key)
    requires Alike(m, a, b)
    ensures GetProp(a, o, k) == GetProp(b, o, k)
  {
    hide EnvsMatch, Injective, Ordered;
    if o.Ref? && o.loc < |a.objs| { assert ObjsMatch(m, a.objs[o.loc], b.objs[o.loc]); }
  }

  lemma PutAlike(m: Match, a: State, b: State, o: Val, k: Key, v: Val)
    requires Alike(m, a, b)
    ensures PutProp(a, o, k, v).0 == PutProp(b, o, k, v).0
    ensures Alike(m, PutProp(a, o, k, v).1, PutProp(b, o, k, v).1)
  {
    hide EnvsMatch, Injective;
    if o.Ref? && o.loc < |a.objs| { assert ObjsMatch(m, a.objs[o.loc], b.objs[o.loc]); }
  }

  lemma {:induction false} PropertiesAlike(m: Match, a: State, b: State, ps: seq<Prop>, vals: seq<Val>)
    requires Alike(m, a, b)
    ensures Properties(a, ps, vals) == Properties(b, ps, vals)
    decreases |ps|
  {
    if ps != [] {
      match ps[0]
      case KeyValue(_, _) => if |vals| >= 2 { PropertiesAlike(m, a, b, ps[1..], vals[2..]); }
      case Spread(_) =>
        if |vals| >= 1 {
          PropertiesAlike(m, a, b, ps[1..], vals[1..]);
          PropsAlike(m, a, b, vals[0]);
          hide Alike, PropsOf;
        }
    }
  }

  lemma PropsAlike(m: Match, a: State, b: State, v: Val)
    requires Alike(m, a, b)
    ensures PropsOf(a, v) == PropsOf(b, v)
  {
    hide EnvsMatch, Injective, Ordered;
    if v.Ref? && v.loc < |a.objs| { assert ObjsMatch(m, a.objs[v.loc], b.objs[v.loc]); }
  }

  lemma CombineAlike(m: Match, e: Expr, vals: seq<Val>, a: State, b: State)
    requires Alike(m, a, b)
    ensures Same(m, Combine(e, vals, a), Combine(e, vals, b), m)
  {
    assert |a.objs| == |b.objs|;
    match e
    case Array(_) => AllocAlike(m, a, b, Plain(Elements(vals)), Plain(Elements(vals)));
    case Object(ps) =>
      PropertiesAlike(m, a, b, ps, vals);
      AllocAlike(m, a, b, Plain(Properties(a, ps, vals)), Plain(Properties(b, ps, vals)));
      hide Alike, Properties, Alloc;
    case Member(_, p) =>
      if |vals| == 1 { GetAlike(m, a, b, vals[0], Named(p)); }
      hide Alike, GetProp;
    case Index(_, _) =>
      if |vals| == 2 { GetAlike(m, a, b, vals[0], KeyOf(vals[1])); }
      hide Alike, GetProp;
    case _ => hide Alike, Operate, OperateUnary, Join;
  }

  lemma GetRefAlike(m: Match, a: State, b: State, e: Loc, r: Reference)
    requires Alike(m, a, b) && e in m
    ensures GetRef(a, e, r) == GetRef(b, m[e], r)
  {
    match r
    case Variable(n) => ReadAlike(m, a, b, e, n);
    case Property(o, k) => GetAlike(m, a, b, o, k);
    case NoReference =>
  }

  lemma PutRefAlike(m: Match, a: State, b: State, e: Loc, r: Reference, v: Val)
    requires Alike(m, a, b) && e in m
    ensures Same(m, PutRef(a, e, r, v), PutRef(b, m[e], r, v), m)
  {
    match r
    case Variable(n) => WriteAlike(m, a, b, e, n, v); hide Alike, WriteVar;
    case Property(o, k) => PutAlike(m, a, b, o, k, v); hide Alike, PutProp;
    case NoReference =>
  }

  // ── Scopes ───────────────────────────────────────────────────────────────

  lemma PushAlike(m: Match, a: State, b: State, e: Loc, vars: map<Name, Slot>)
    requires Alike(m, a, b) && e in m
    ensures var m1 := m[|a.envs| := |b.envs|]; Alike(m1, Push(a, e, vars), Push(b, m[e], vars)) && Extends(m, m1)
  {
    var m1, a1, b1 := m[|a.envs| := |b.envs|], Push(a, e, vars), Push(b, m[e], vars);
    forall i | 0 <= i < |a1.objs|
      ensures ObjsMatch(m1, a1.objs[i], b1.objs[i])
    {
      assert ObjsMatch(m, a.objs[i], b.objs[i]);
    }
    hide ObjsMatch;
    forall x | x in m1 ensures EnvsMatch(m1, a1.envs[x], b1.envs[m1[x]]) {
      if x != |a.envs| { assert EnvsMatch(m, a.envs[x], b.envs[m[x]]); }
    }
  }

  lemma CopyAlike(m: Match, a: State, b: State, e: Loc)
    requires Alike(m, a, b) && e in m
    ensures var m1 := m[|a.envs| := |b.envs|]; Alike(m1, CopyEnv(a, e), CopyEnv(b, m[e])) && Extends(m, m1)
  {
    var m1, a1, b1 := m[|a.envs| := |b.envs|], CopyEnv(a, e), CopyEnv(b, m[e]);
    forall i | 0 <= i < |a1.objs|
      ensures ObjsMatch(m1, a1.objs[i], b1.objs[i])
    {
      assert ObjsMatch(m, a.objs[i], b.objs[i]);
    }
    hide ObjsMatch;
    assert EnvsMatch(m, a.envs[e], b.envs[m[e]]);
    forall x | x in m1 ensures EnvsMatch(m1, a1.envs[x], b1.envs[m1[x]]) {
      if x != |a.envs| { assert EnvsMatch(m, a.envs[x], b.envs[m[x]]); }
    }
  }

  lemma {:induction false} HoistAlike(m: Match, a: State, b: State, e: Loc, ss: seq<Stmt>)
    requires Alike(m, a, b) && e in m
    ensures Alike(m, Hoist(a, e, ss), Hoist(b, m[e], ss))
    decreases |ss|
  {
    if ss != [] {
      if ss[0].FuncDecl? {
        var o, p := Fun(ss[0].params, ss[0].body, e), Fun(ss[0].params, ss[0].body, m[e]);
        assert |a.objs| == |b.objs|;
        AllocAlike(m, a, b, o, p);
        InitAlike(m, Alloc(a, o), Alloc(b, p), e, ss[0].name, Ref(|a.objs|));
        hide Alike;
        HoistAlike(m, InitVar(Alloc(a, o), e, ss[0].name, Ref(|a.objs|)), InitVar(Alloc(b, p), m[e], ss[0].name, Ref(|b.objs|)), e, ss[1..]);
      } else {
        HoistAlike(m, a, b, e, ss[1..]);
      }
    }
  }

  lemma EnterAlike(m: Match, a: State, b: State, e: Loc, ss: seq<Stmt>, vars: map<Name, Slot>)
    requires Alike(m, a, b) && e in m
    ensures var m1 := m[|a.envs| := |b.envs|]; Alike(m1, Enter(a, e, ss, vars), Enter(b, m[e], ss, vars)) && Extends(m, m1)
  {
    PushAlike(m, a, b, e, vars + Declared(ss));
    hide Alike, Push;
    HoistAlike(m[|a.envs| := |b.envs|], Push(a, e, vars + Declared(ss)), Push(b, m[e], vars + Declared(ss)), |a.envs|, ss);
  }

  /** The sharing run goes on in `e`, the copying run in a copy: what was hidden below `e`
      is forgotten, and `e` now stands for the copy. */
  function Rebound(m: Match, hidden: set<Loc>, e: Loc, copy: Loc): Match {
    (map x | x in m && x !in hidden :: m[x])[e := copy]
  }

  lemma ReboundAt(m: Match, hidden: set<Loc>, e: Loc, copy: Loc)
    ensures var m1 := Rebound(m, hidden, e, copy);
      && e in m1 && m1[e] == copy
      && (forall x :: x in m1 <==> x == e || (x in m && x !in hidden))
      && (forall x | x in m1 && x != e :: m1[x] == m[x])
  {
  }

  lemma RebindObjs(m: Match, a: State, b: State, e: Loc, hidden: set<Loc>)
    requires Alike(m, a, b) && Hidden(a, hidden) && e in hidden
    ensures forall i | 0 <= i < |a.objs| :: ObjsMatch(Rebound(m, hidden, e, |b.envs|), a.objs[i], b.objs[i])
  {
    ReboundAt(m, hidden, e, |b.envs|);
    hide Rebound, Injective, EnvsMatch;
    forall i | 0 <= i < |a.objs| ensures ObjsMatch(Rebound(m, hidden, e, |b.envs|), a.objs[i], b.objs[i]) {
      assert ObjsMatch(m, a.objs[i], b.objs[i]);
    }
  }

  lemma RebindEnvs(m: Match, a: State, b: State, e: Loc, hidden: set<Loc>)
    requires Alike(m, a, b) && e in m && Hidden(a, hidden) && e in hidden
    requires a.envs[e].parent.Some? && a.envs[e].parent.value !in hidden
    ensures var m1, b1 := Rebound(m, hidden, e, |b.envs|), CopyEnv(b, m[e]);
      && Injective(m1)
      && forall x | x in m1 :: x < |a.envs| && m1[x] < |b1.envs| && EnvsMatch(m1, a.envs[x], b1.envs[m1[x]])
  {
    var m1, b1 := Rebound(m, hidden, e, |b.envs|), CopyEnv(b, m[e]);
    ReboundAt(m, hidden, e, |b.envs|);
    hide Rebound, ObjsMatch;
    assert EnvsMatch(m, a.envs[e], b.envs[m[e]]);
    forall x | x in m1 ensures x < |a.envs| && m1[x] < |b1.envs| && EnvsMatch(m1, a.envs[x], b1.envs[m1[x]]) {
      if x != e { assert EnvsMatch(m, a.envs[x], b.envs[m[x]]); }
    }
  }

  lemma RebindAlike(m: Match, a: State, b: State, e: Loc, hidden: set<Loc>)
    requires Alike(m, a, b) && e in m && Hidden(a, hidden) && e in hidden
    requires a.envs[e].parent.Some? && a.envs[e].parent.value !in hidden
    ensures Alike(Rebound(m, hidden, e, |b.envs|), a, CopyEnv(b, m[e]))
  {
    RebindObjs(m, a, b, e, hidden);
    RebindEnvs(m, a, b, e, hidden);
    ReboundAt(m, hidden, e, |b.envs|);
    hide Rebound, ObjsMatch, EnvsMatch, Injective;
  }

  // ── The two runs, task by task ───────────────────────────────────────────

  function Sharing(parse: Val -> seq<Stmt>): World { World(true, parse) }

  function Copying(parse: Val -> seq<Stmt>): World { World(false, parse) }

  lemma ExtendsThen(m: Match, m1: Match, m2: Match)
    requires Extends(m, m1) && Extends(m1, m2)
    ensures Extends(m, m2)
  {
  }

  /** The same task in matching environments. */
  lemma {:induction false} RunSame(f: Val -> seq<Stmt>, fuel: nat, m: Match, a: State, b: State, e: Loc, t: Task)
    returns (m1: Match)
    requires Alike(m, a, b) && e in m
    ensures Same(m, Run(Sharing(f), fuel, a, e, t), Run(Copying(f), fuel, b, m[e], t), m1)
    decreases fuel, 9
  {
    if fuel == 0 {
      m1 := m;
    } else {
      hide Alike, RunExpr, RunAll, RunStmt, RunStmts, RunDecls, RunLoop, RunPick, RunApply;
      match t
      case Eval(x) => m1 := ExprSame(f, fuel, m, a, b, e, x);
      case EvalAll(es, done) => m1 := AllSame(f, fuel, m, a, b, e, es, done);
      case Exec(s, labels) => m1 := StmtSame(f, fuel, m, a, b, e, s, labels);
      case ExecAll(ss) => m1 := StmtsSame(f, fuel, m, a, b, e, ss);
      case Declare(decls) => m1 := DeclsSame(f, fuel, m, a, b, e, decls);
      case Loop(skip, cond, update, body, labels, copy) => m1 := LoopSame(f, fuel, m, a, b, e, skip, cond, update, body, labels, copy);
      case Pick(cases, i, v) => m1 := PickSame(f, fuel, m, a, b, e, cases, i, v);
      case Apply(g, args) => m1 := ApplySame(f, fuel, m, a, b, e, g, args);
    }
  }

  /** A task after what both runs have done alike. */
  lemma {:induction false} ThenSame(f: Val -> seq<Stmt>, fuel: nat, m0: Match, m: Match, a: State, b: State, e: Loc,
                                    t: Task) returns (m1: Match)
    requires Alike(m, a, b) && Extends(m0, m) && e in m0
    ensures Same(m0, Run(Sharing(f), fuel, a, e, t), Run(Copying(f), fuel, b, m0[e], t), m1)
    decreases fuel, 10
  {
    m1 := RunSame(f, fuel, m, a, b, e, t);
    ExtendsThen(m0, m, m1);
    hide Run, Alike;
  }

  /** Statements in a scope of their own. */
  lemma {:induction false} ScopeSame(f: Val -> seq<Stmt>, fuel: nat, m0: Match, m: Match, a: State, b: State, e: Loc,
                                     ss: seq<Stmt>, vars: map<Name, Slot>, t: Task) returns (m1: Match)
    requires Alike(m, a, b) && Extends(m0, m) && e in m
    ensures Same(m0, Run(Sharing(f), fuel, Enter(a, e, ss, vars), |a.envs|, t), Run(Copying(f), fuel, Enter(b, m[e], ss, vars), |b.envs|, t), m1)
    decreases fuel, 10
  {
    var m2 := m[|a.envs| := |b.envs|];
    EnterAlike(m, a, b, e, ss, vars);
    hide Run, Alike, Enter;
    m1 := RunSame(f, fuel, m2, Enter(a, e, ss, vars), Enter(b, m[e], ss, vars), |a.envs|, t);
    ExtendsThen(m0, m, m2);
    ExtendsThen(m0, m2, m1);
  }

  lemma {:induction false} AllSame(f: Val -> seq<Stmt>, fuel: nat, m: Match, a: State, b: State, e: Loc, es: seq<Expr>,
                                   done: seq<Val>) returns (m1: Match)
    requires fuel > 0 && Alike(m, a, b) && e in m
    ensures Same(m, RunAll(Sharing(f), fuel, a, e, es, done), RunAll(Copying(f), fuel, b, m[e], es, done), m1)
    decreases fuel, 0
  {
    hide Alike, Run;
    m1 := m;
    if es != [] {
      m1 := RunSame(f, fuel - 1, m, a, b, e, Eval(es[0]));
      var (r, a1) := Run(Sharing(f), fuel - 1, a, e, Eval(es[0]));
      var (_, b1) := Run(Copying(f), fuel - 1, b, m[e], Eval(es[0]));
      if r.V? { m1 := ThenSame(f, fuel - 1, m, m1, a1, b1, e, EvalAll(es[1..], done + [r.v])); }
    }
  }

  lemma {:induction false} StmtsSame(f: Val -> seq<Stmt>, fuel: nat, m: Match, a: State, b: State, e: Loc, ss: seq<Stmt>)
    returns (m1: Match)
    requires fuel > 0 && Alike(m, a, b) && e in m
    ensures Same(m, RunStmts(Sharing(f), fuel, a, e, ss), RunStmts(Copying(f), fuel, b, m[e], ss), m1)
    decreases fuel, 0
  {
    hide Alike, Run;
    m1 := m;
    if ss != [] {
      m1 := RunSame(f, fuel - 1, m, a, b, e, Exec(ss[0], []));
      var (r, a1) := Run(Sharing(f), fuel - 1, a, e, Exec(ss[0], []));
      var (_, b1) := Run(Copying(f), fuel - 1, b, m[e], Exec(ss[0], []));
      if r.Done? { m1 := ThenSame(f, fuel - 1, m, m1, a1, b1, e, ExecAll(ss[1..])); }
    }
  }

  lemma {:induction false} DeclsSame(f: Val -> seq<Stmt>, fuel: nat, m: Match, a: State, b: State, e: Loc,
                                     decls: seq<Declarator>) returns (m1: Match)
    requires fuel > 0 && Alike(m, a, b) && e in m
    ensures Same(m, RunDecls(Sharing(f), fuel, a, e, decls), RunDecls(Copying(f), fuel, b, m[e], decls), m1)
    decreases fuel, 0
  {
    hide Alike, Run, InitVar;
    m1 := m;
    if decls != [] {
      var d := decls[0];
      if d.init.Some? { m1 := RunSame(f, fuel - 1, m, a, b, e, Eval(d.init.value)); }
      var (r, a1) := if d.init.None? then (V(Undef), a) else Run(Sharing(f), fuel - 1, a, e, Eval(d.init.value));
      var (_, b1) := if d.init.None? then (V(Undef), b) else Run(Copying(f), fuel - 1, b, m[e], Eval(d.init.value));
      if r.V? {
        InitAlike(m1, a1, b1, e, d.name, r.v);
        m1 := ThenSame(f, fuel - 1, m, m1, InitVar(a1, e, d.name, r.v), InitVar(b1, m[e], d.name, r.v), e, Declare(decls[1..]));
      }
    }
  }

  lemma {:induction false} PickSame(f: Val -> seq<Stmt>, fuel: nat, m: Match, a: State, b: State, e: Loc,
                                    cases: seq<Case>, i: nat, v: Val) returns (m1: Match)
    requires fuel > 0 && Alike(m, a, b) && e in m
    ensures Same(m, RunPick(Sharing(f), fuel, a, e, cases, i, v), RunPick(Copying(f), fuel, b, m[e], cases, i, v), m1)
    decreases fuel, 0
  {
    hide Alike, Run;
    m1 := m;
    if i < |cases| {
      var test := cases[i].test;
      if test.Some? { m1 := RunSame(f, fuel - 1, m, a, b, e, Eval(test.value)); }
      var (t, a1) := if test.None? then (Done, a) else Run(Sharing(f), fuel - 1, a, e, Eval(test.value));
      var (_, b1) := if test.None? then (Done, b) else Run(Copying(f), fuel - 1, b, m[e], Eval(test.value));
      if !t.Stop? && t != V(v) { m1 := ThenSame(f, fuel - 1, m, m1, a1, b1, e, Pick(cases, i + 1, v)); }
    }
  }

  /** A call of a function object. */
  lemma {:induction false} FunctionSame(f: Val -> seq<Stmt>, fuel: nat, m: Match, a: State, b: State, e: Loc, l: nat,
                                        args: seq<Val>) returns (m1: Match)
    requires fuel > 0 && Alike(m, a, b) && e in m && l < |a.objs| && a.objs[l].Fun?
    ensures Same(m, RunApply(Sharing(f), fuel, a, e, Ref(l), args), RunApply(Copying(f), fuel, b, m[e], Ref(l), args), m1)
    decreases fuel, 0, 0
  {
    var fun := a.objs[l];
    assert |a.objs| == |b.objs| && ObjsMatch(m, fun, b.objs[l]);
    hide Run, Enter, Alike;
    m1 := ScopeSame(f, fuel - 1, m, m, a, b, fun.env, fun.body, Bound(fun.params, args), ExecAll(fun.body));
    hide Bound;
  }

  /** Indirect `eval`. */
  lemma {:induction false} GlobalEvalSame(f: Val -> seq<Stmt>, fuel: nat, m: Match, a: State, b: State, e: Loc,
                                          args: seq<Val>) returns (m1: Match)
    requires fuel > 0 && Alike(m, a, b) && e in m
    ensures Same(m, RunApply(Sharing(f), fuel, a, e, EvalFn, args), RunApply(Copying(f), fuel, b, m[e], EvalFn, args), m1)
    decreases fuel, 0, 0
  {
    m1 := m;
    assert 0 in m && m[0] == 0;
    hide Run, Enter, Alike;
    if args != [] { m1 := ScopeSame(f, fuel - 1, m, m, a, b, 0, f(args[0]), map[], ExecAll(f(args[0]))); }
  }

  lemma {:induction false} ApplySame(f: Val -> seq<Stmt>, fuel: nat, m: Match, a: State, b: State, e: Loc, g: Val,
                                     args: seq<Val>) returns (m1: Match)
    requires fuel > 0 && Alike(m, a, b) && e in m
    ensures Same(m, RunApply(Sharing(f), fuel, a, e, g, args), RunApply(Copying(f), fuel, b, m[e], g, args), m1)
    decreases fuel, 0, 1
  {
    if g.EvalFn? {
      m1 := GlobalEvalSame(f, fuel, m, a, b, e, args);
    } else if g.Ref? && g.loc < |a.objs| && a.objs[g.loc].Fun? {
      m1 := FunctionSame(f, fuel, m, a, b, e, g.loc, args);
    } else {
      m1 := m;
      assert g.Ref? && g.loc < |a.objs| ==> ObjsMatch(m, a.objs[g.loc], b.objs[g.loc]);
      hide Run, Enter, Bound;
    }
  }

  lemma {:induction false} ExprSame(f: Val -> seq<Stmt>, fuel: nat, m: Match, a: State, b: State, e: Loc, x: Expr)
    returns (m1: Match)
    requires fuel > 0 && Alike(m, a, b) && e in m
    ensures Same(m, RunExpr(Sharing(f), fuel, a, e, x), RunExpr(Copying(f), fuel, b, m[e], x), m1)
    decreases fuel, 8
  {
    assert |a.objs| == |b.objs|;
    hide Alike, Run, RunAssign, RunEval, Combine, GetRef, PutRef, ReadVar, MakeClass, Alloc, ObjsMatch;
    m1 := m;
    if IsStrict(x) {
      m1 := StrictSame(f, fuel, m, a, b, e, x);
      return;
    }
    match x
    case Ident(n) => ReadAlike(m, a, b, e, n);
    case Function(params, body) => FunAlike(m, a, b, e, params, body);
    case Class(methods) => ClassAlike(m, a, b, e, methods);
    case Logical(op, l, r) => m1 := LogicalSame(f, fuel, m, a, b, e, op, l, r);
    case Conditional(test, cons, alt) => m1 := ConditionalSame(f, fuel, m, a, b, e, test, cons, alt);
    case Assign(target, op, value) => m1 := AssignSame(f, fuel, m, a, b, e, target, op, value);
    case Update(inc, prefix, target) => m1 := UpdateSame(f, fuel, m, a, b, e, inc, prefix, target);
    case Call(func, args) => m1 := CallSame(f, fuel, m, a, b, e, func, args);
    case _ =>
  }

  lemma {:induction false} LogicalSame(f: Val -> seq<Stmt>, fuel: nat, m: Match, a: State, b: State, e: Loc,
                                       op: LogicalOp, l: Expr, r: Expr)
      returns (m1: Match)
    requires fuel > 0 && Alike(m, a, b) && e in m
    ensures Same(m, RunExpr(Sharing(f), fuel, a, e, Logical(op, l, r)), RunExpr(Copying(f), fuel, b, m[e], Logical(op, l, r)), m1)
    decreases fuel, 1
  {
    hide Alike, Run;
    m1 := RunSame(f, fuel - 1, m, a, b, e, Eval(l));
    var (v, a1) := Run(Sharing(f), fuel - 1, a, e, Eval(l));
    var (_, b1) := Run(Copying(f), fuel - 1, b, m[e], Eval(l));
    if v.V? && (match op case And => Truthy(v.v) case Or => !Truthy(v.v) case Nullish => v.v.Undef? || v.v.Nil?) {
      m1 := ThenSame(f, fuel - 1, m, m1, a1, b1, e, Eval(r));
    }
  }

  lemma {:induction false} ConditionalSame(f: Val -> seq<Stmt>, fuel: nat, m: Match, a: State, b: State, e: Loc,
                                           test: Expr, cons: Expr, alt: Expr)
      returns (m1: Match)
    requires fuel > 0 && Alike(m, a, b) && e in m
    ensures Same(m, RunExpr(Sharing(f), fuel, a, e, Conditional(test, cons, alt)), RunExpr(Copying(f), fuel, b, m[e], Conditional(test, cons, alt)), m1)
    decreases fuel, 1
  {
    hide Alike, Run;
    m1 := RunSame(f, fuel - 1, m, a, b, e, Eval(test));
    var (v, a1) := Run(Sharing(f), fuel - 1, a, e, Eval(test));
    var (_, b1) := Run(Copying(f), fuel - 1, b, m[e], Eval(test));
    if v.V? { m1 := ThenSame(f, fuel - 1, m, m1, a1, b1, e, Eval(if Truthy(v.v) then cons else alt)); }
  }

  lemma FunAlike(m: Match, a: State, b: State, e: Loc, params: seq<Name>, body: seq<Stmt>)
    requires Alike(m, a, b) && e in m
    ensures Alike(m, Alloc(a, Fun(params, body, e)), Alloc(b, Fun(params, body, m[e])))
  {
    AllocAlike(m, a, b, Fun(params, body, e), Fun(params, body, m[e]));
  }

  lemma {:induction false} StrictSame(f: Val -> seq<Stmt>, fuel: nat, m: Match, a: State, b: State, e: Loc, x: Expr)
    returns (m1: Match)
    requires fuel > 0 && Alike(m, a, b) && e in m && IsStrict(x)
    ensures Same(m, RunExpr(Sharing(f), fuel, a, e, x), RunExpr(Copying(f), fuel, b, m[e], x), m1)
    decreases fuel, 1
  {
    hide Alike, Run, Combine, Operands;
    m1 := RunSame(f, fuel - 1, m, a, b, e, EvalAll(Operands(x), []));
    var (v, a1) := Run(Sharing(f), fuel - 1, a, e, EvalAll(Operands(x), []));
    var (_, b1) := Run(Copying(f), fuel - 1, b, m[e], EvalAll(Operands(x), []));
    if v.Vs? { CombineAlike(m1, x, v.vs, a1, b1); }
  }

  lemma {:induction false} AssignSame(f: Val -> seq<Stmt>, fuel: nat, m: Match, a: State, b: State, e: Loc,
                                      target: Expr, op: Option<BinOp>, value: Expr)
      returns (m1: Match)
    requires fuel > 0 && Alike(m, a, b) && e in m
    ensures Same(m, RunExpr(Sharing(f), fuel, a, e, Assign(target, op, value)), RunExpr(Copying(f), fuel, b, m[e], Assign(target, op, value)), m1)
    decreases fuel, 1
  {
    hide Alike, Run, GetRef, PutRef;
    m1 := RunSame(f, fuel - 1, m, a, b, e, EvalAll(TargetOperands(target), []));
    var (v, a1) := Run(Sharing(f), fuel - 1, a, e, EvalAll(TargetOperands(target), []));
    var (_, b1) := Run(Copying(f), fuel - 1, b, m[e], EvalAll(TargetOperands(target), []));
    if v.Vs? {
      var ref := TargetOf(target, v.vs);
      GetRefAlike(m1, a1, b1, e, ref);
      var was := if op.None? then V(Undef) else GetRef(a1, e, ref);
      if was.V? {
        m1 := ThenSame(f, fuel - 1, m, m1, a1, b1, e, Eval(value));
        var (x, a2) := Run(Sharing(f), fuel - 1, a1, e, Eval(value));
        var (_, b2) := Run(Copying(f), fuel - 1, b1, m[e], Eval(value));
        if x.V? { PutRefAlike(m1, a2, b2, e, ref, if op.None? then x.v else Operate(op.value, was.v, x.v)); }
      }
    }
  }

  lemma {:induction false} UpdateSame(f: Val -> seq<Stmt>, fuel: nat, m: Match, a: State, b: State, e: Loc, inc: bool,
                                      prefix: bool, target: Expr)
      returns (m1: Match)
    requires fuel > 0 && Alike(m, a, b) && e in m
    ensures Same(m, RunExpr(Sharing(f), fuel, a, e, Update(inc, prefix, target)), RunExpr(Copying(f), fuel, b, m[e], Update(inc, prefix, target)), m1)
    decreases fuel, 1
  {
    hide Alike, Run, GetRef, PutRef;
    m1 := RunSame(f, fuel - 1, m, a, b, e, EvalAll(TargetOperands(target), []));
    var (v, a1) := Run(Sharing(f), fuel - 1, a, e, EvalAll(TargetOperands(target), []));
    var (_, b1) := Run(Copying(f), fuel - 1, b, m[e], EvalAll(TargetOperands(target), []));
    if v.Vs? {
      var ref := TargetOf(target, v.vs);
      GetRefAlike(m1, a1, b1, e, ref);
      var was := GetRef(a1, e, ref);
      if was.V? { PutRefAlike(m1, a1, b1, e, ref, Num(NumOf(was.v) + if inc then 1 else -1)); }
    }
  }

  lemma {:induction false} CallSame(f: Val -> seq<Stmt>, fuel: nat, m: Match, a: State, b: State, e: Loc, func: Expr,
                                    args: seq<Expr>) returns (m1: Match)
    requires fuel > 0 && Alike(m, a, b) && e in m
    ensures Same(m, RunExpr(Sharing(f), fuel, a, e, Call(func, args)), RunExpr(Copying(f), fuel, b, m[e], Call(func, args)), m1)
    decreases fuel, 1
  {
    hide Alike, Run, Hoist;
    m1 := RunSame(f, fuel - 1, m, a, b, e, Eval(func));
    var (g, a1) := Run(Sharing(f), fuel - 1, a, e, Eval(func));
    var (_, b1) := Run(Copying(f), fuel - 1, b, m[e], Eval(func));
    if g.V? {
      m1 := ThenSame(f, fuel - 1, m, m1, a1, b1, e, EvalAll(args, []));
      var (vs, a2) := Run(Sharing(f), fuel - 1, a1, e, EvalAll(args, []));
      var (_, b2) := Run(Copying(f), fuel - 1, b1, m[e], EvalAll(args, []));
      if vs.Vs? {
        if func == Ident(EVAL) && g.v == EvalFn {
          if vs.vs != [] {
            HoistAlike(m1, a2, b2, e, f(vs.vs[0]));
            m1 := ThenSame(f, fuel - 1, m, m1, Hoist(a2, e, f(vs.vs[0])), Hoist(b2, m[e], f(vs.vs[0])), e, ExecAll(f(vs.vs[0])));
          }
        } else {
          m1 := ThenSame(f, fuel - 1, m, m1, a2, b2, e, Apply(g.v, vs.vs));
        }
      }
    }
  }

  lemma {:induction false} StmtSame(f: Val -> seq<Stmt>, fuel: nat, m: Match, a: State, b: State, e: Loc, s: Stmt,
                                    labels: seq<Name>) returns (m1: Match)
    requires fuel > 0 && Alike(m, a, b) && e in m
    ensures Same(m, RunStmt(Sharing(f), fuel, a, e, s, labels), RunStmt(Copying(f), fuel, b, m[e], s, labels), m1)
    decreases fuel, 8
  {
    hide Alike, Run, RunFor, RunSwitch, RunTry, Enter, MakeClass, InitVar;
    m1 := m;
    match s
    case ExprStmt(x) => m1 := RunSame(f, fuel - 1, m, a, b, e, Eval(x));
    case Throw(x) => m1 := RunSame(f, fuel - 1, m, a, b, e, Eval(x));
    case Return(value) => if value.Some? { m1 := RunSame(f, fuel - 1, m, a, b, e, Eval(value.value)); }
    case Let(decls) => m1 := RunSame(f, fuel - 1, m, a, b, e, Declare(decls));
    case Block(body) => m1 := ScopeSame(f, fuel - 1, m, m, a, b, e, body, map[], ExecAll(body));
    case If(test, cons, alt) =>
      m1 := RunSame(f, fuel - 1, m, a, b, e, Eval(test));
      var (r, a1) := Run(Sharing(f), fuel - 1, a, e, Eval(test));
      var (_, b1) := Run(Copying(f), fuel - 1, b, m[e], Eval(test));
      if r.V? {
        if Truthy(r.v) { m1 := ThenSame(f, fuel - 1, m, m1, a1, b1, e, Exec(cons, [])); }
        else if alt.Some? { m1 := ThenSame(f, fuel - 1, m, m1, a1, b1, e, Exec(alt.value, [])); }
      }
    case While(test, body) => m1 := RunSame(f, fuel - 1, m, a, b, e, Loop(false, Some(test), None, body, labels, false));
    case DoWhile(body, test) => m1 := RunSame(f, fuel - 1, m, a, b, e, Loop(true, Some(test), None, body, labels, false));
    case For(init, test, update, body) => m1 := ForSame(f, fuel, m, a, b, e, s, labels);
    case Switch(disc, cases) => m1 := SwitchSame(f, fuel, m, a, b, e, disc, cases);
    case Labeled(name, body) => m1 := RunSame(f, fuel - 1, m, a, b, e, Exec(body, labels + [name]));
    case Try(block, handler, finalizer) => m1 := TrySame(f, fuel, m, a, b, e, block, handler, finalizer);
    case ClassDecl(name, methods) =>
      ClassAlike(m, a, b, e, methods);
      InitAlike(m, MakeClass(a, e, methods), MakeClass(b, m[e], methods), e, name, Ref(|a.objs| + |methods|));
    case _ =>
  }

  lemma {:induction false} LoopSame(f: Val -> seq<Stmt>, fuel: nat, m: Match, a: State, b: State, e: Loc, skip: bool, cond: Option<Expr>,
                                    update: Option<Expr>, body: Stmt, labels: seq<Name>, copy: bool) returns (m1: Match)
    requires fuel > 0 && Alike(m, a, b) && e in m
    ensures Same(m, RunLoop(Sharing(f), fuel, a, e, skip, cond, update, body, labels, copy),
                 RunLoop(Copying(f), fuel, b, m[e], skip, cond, update, body, labels, copy), m1)
    decreases fuel, 3
  {
    hide Alike, Run, RunIteration;
    m1 := m;
    if !skip && cond.Some? { m1 := RunSame(f, fuel - 1, m, a, b, e, Eval(cond.value)); }
    var (t, a1) := if skip || cond.None? then (V(Bool(true)), a) else Run(Sharing(f), fuel - 1, a, e, Eval(cond.value));
    var (_, b1) := if skip || cond.None? then (V(Bool(true)), b) else Run(Copying(f), fuel - 1, b, m[e], Eval(cond.value));
    if t.V? && Truthy(t.v) { m1 := IterationSame(f, fuel, m, m1, a1, b1, e, cond, update, body, labels, copy); }
  }

  lemma {:induction false} IterationSame(f: Val -> seq<Stmt>, fuel: nat, m0: Match, m: Match, a: State, b: State, e: Loc, cond: Option<Expr>,
                                         update: Option<Expr>, body: Stmt, labels: seq<Name>, copy: bool) returns (m1: Match)
    requires fuel > 0 && Alike(m, a, b) && Extends(m0, m) && e in m0
    ensures Same(m0, RunIteration(Sharing(f), fuel, a, e, cond, update, body, labels, copy),
                 RunIteration(Copying(f), fuel, b, m0[e], cond, update, body, labels, copy), m1)
    decreases fuel, 2
  {
    hide Alike, Run, RunNext, CopyEnv;
    m1 := ThenSame(f, fuel - 1, m0, m, a, b, e, Exec(body, []));
    var (r, a1) := Run(Sharing(f), fuel - 1, a, e, Exec(body, []));
    var (_, b1) := Run(Copying(f), fuel - 1, b, m0[e], Exec(body, []));
    if GoesOn(r, labels) {
      if copy {
        m1 := NextCopiedSame(f, fuel, m0, m1, a1, b1, e, cond, update, body, labels);
      } else {
        m1 := NextSame(f, fuel, m0, m1, a1, b1, e, cond, update, body, labels, false);
      }
    }
  }

  lemma {:induction false} NextCopiedSame(f: Val -> seq<Stmt>, fuel: nat, m0: Match, m: Match, a: State, b: State, e: Loc, cond: Option<Expr>,
                                          update: Option<Expr>, body: Stmt, labels: seq<Name>) returns (m1: Match)
    requires fuel > 0 && Alike(m, a, b) && Extends(m0, m) && e in m
    ensures Same(m0, RunNext(Sharing(f), fuel, CopyEnv(a, e), |a.envs|, cond, update, body, labels, true),
                 RunNext(Copying(f), fuel, CopyEnv(b, m[e]), |b.envs|, cond, update, body, labels, true), m1)
    decreases fuel, 1
  {
    var m2 := m[|a.envs| := |b.envs|];
    CopyAlike(m, a, b, e);
    ExtendsThen(m0, m, m2);
    hide Alike, CopyEnv, RunNext, Extends, Same;
    m1 := NextSame(f, fuel, m0, m2, CopyEnv(a, e), CopyEnv(b, m[e]), |a.envs|, cond, update, body, labels, true);
  }

  lemma {:induction false} NextSame(f: Val -> seq<Stmt>, fuel: nat, m0: Match, m: Match, a: State, b: State, e: Loc, cond: Option<Expr>,
                                    update: Option<Expr>, body: Stmt, labels: seq<Name>, copy: bool) returns (m1: Match)
    requires fuel > 0 && Alike(m, a, b) && Extends(m0, m) && e in m
    ensures Same(m0, RunNext(Sharing(f), fuel, a, e, cond, update, body, labels, copy),
                 RunNext(Copying(f), fuel, b, m[e], cond, update, body, labels, copy), m1)
    decreases fuel, 0
  {
    hide Alike, Run;
    m1 := m;
    if update.Some? { m1 := RunSame(f, fuel - 1, m, a, b, e, Eval(update.value)); }
    var (u, a2) := if update.None? then (V(Undef), a) else Run(Sharing(f), fuel - 1, a, e, Eval(update.value));
    var (_, b2) := if update.None? then (V(Undef), b) else Run(Copying(f), fuel - 1, b, m[e], Eval(update.value));
    if u.V? { m1 := ThenSame(f, fuel - 1, m, m1, a2, b2, e, Loop(false, cond, update, body, labels, copy)); }
    ExtendsThen(m0, m, m1);
  }

  lemma {:induction false} SwitchSame(f: Val -> seq<Stmt>, fuel: nat, m: Match, a: State, b: State, e: Loc, disc: Expr,
                                      cases: seq<Case>) returns (m1: Match)
    requires fuel > 0 && Alike(m, a, b) && e in m
    ensures Same(m, RunSwitch(Sharing(f), fuel, a, e, disc, cases), RunSwitch(Copying(f), fuel, b, m[e], disc, cases), m1)
    decreases fuel, 1
  {
    hide Alike, Run, Enter, CaseBodies;
    m1 := RunSame(f, fuel - 1, m, a, b, e, Eval(disc));
    var (d, a1) := Run(Sharing(f), fuel - 1, a, e, Eval(disc));
    var (_, b1) := Run(Copying(f), fuel - 1, b, m[e], Eval(disc));
    if d.V? {
      var inner, ss, m2 := |a1.envs|, CaseBodies(cases, 0), m1[|a1.envs| := |b1.envs|];
      EnterAlike(m1, a1, b1, e, ss, map[]);
      ExtendsThen(m, m1, m2);
      var a2, b2 := Enter(a1, e, ss, map[]), Enter(b1, m[e], ss, map[]);
      var m3 := RunSame(f, fuel - 1, m2, a2, b2, inner, Pick(cases, 0, d.v));
      var (p, a3) := Run(Sharing(f), fuel - 1, a2, inner, Pick(cases, 0, d.v));
      var (_, b3) := Run(Copying(f), fuel - 1, b2, m2[inner], Pick(cases, 0, d.v));
      if p.V? {
        var start := if p.v.Num? && p.v.n >= 0 then p.v.n else DefaultCase(cases, 0);
        m3 := ThenSame(f, fuel - 1, m2, m3, a3, b3, inner, ExecAll(CaseBodies(cases, start)));
      }
      ExtendsThen(m, m2, m3);
      m1 := m3;
    }
  }

  lemma {:induction false} TrySame(f: Val -> seq<Stmt>, fuel: nat, m: Match, a: State, b: State, e: Loc, block: seq<Stmt>, handler: Option<Handler>,
                                   finalizer: Option<Finalizer>) returns (m1: Match)
    requires fuel > 0 && Alike(m, a, b) && e in m
    ensures Same(m, RunTry(Sharing(f), fuel, a, e, block, handler, finalizer), RunTry(Copying(f), fuel, b, m[e], block, handler, finalizer), m1)
    decreases fuel, 1
  {
    hide Alike, Run, Enter;
    m1 := ScopeSame(f, fuel - 1, m, m, a, b, e, block, map[], ExecAll(block));
    var (r, a1) := Run(Sharing(f), fuel - 1, Enter(a, e, block, map[]), |a.envs|, ExecAll(block));
    var (_, b1) := Run(Copying(f), fuel - 1, Enter(b, m[e], block, map[]), |b.envs|, ExecAll(block));
    var caught := r.Stop? && r.c.Throws? && handler.Some?;
    var (r2, a2) := if caught then RunCatch(Sharing(f), fuel, a1, e, handler.value, r.c.v) else (r, a1);
    var (_, b2) := if caught then RunCatch(Copying(f), fuel, b1, m[e], handler.value, r.c.v) else (r, b1);
    if caught {
      var vars := if handler.value.param.Some? then map[handler.value.param.value := Live(r.c.v)] else map[];
      m1 := ScopeSame(f, fuel - 1, m, m1, a1, b1, e, handler.value.body, vars, ExecAll(handler.value.body));
    }
    if !(finalizer.None? || r2 == Stop(OutOfFuel)) {
      m1 := ScopeSame(f, fuel - 1, m, m1, a2, b2, e, finalizer.value.body, map[], ExecAll(finalizer.value.body));
    }
  }

  // ── The `for` statement ──────────────────────────────────────────────────

  lemma {:induction false} ForSame(f: Val -> seq<Stmt>, fuel: nat, m: Match, a: State, b: State, e: Loc, s: Stmt,
                                   labels: seq<Name>) returns (m1: Match)
    requires fuel > 0 && Alike(m, a, b) && e in m && s.For?
    ensures Same(m, RunFor(Sharing(f), fuel, a, e, s, labels), RunFor(Copying(f), fuel, b, m[e], s, labels), m1)
    decreases fuel, 2
  {
    if s.init.Some? && s.init.value.Let? {
      if StmtCaptures(s) {
        hide Alike, Run, RunLetFor;
        m1 := CopiedForSame(f, fuel, m, a, b, e, s.init.value.decls, s.cond, s.update, s.body1, labels);
      } else {
        QuietFor(s, labels);
        hide Alike, Run, RunLetFor, DeclsQuiet, Quiet;
        m1 := SharedForSame(f, fuel, m, a, b, e, s.init.value.decls, s.cond, s.update, s.body1, labels);
      }
    } else {
      m1 := PlainForSame(f, fuel, m, a, b, e, s, labels);
    }
  }

  /** A `for` statement whose head declares nothing. */
  lemma {:induction false} PlainForSame(f: Val -> seq<Stmt>, fuel: nat, m: Match, a: State, b: State, e: Loc, s: Stmt,
                                        labels: seq<Name>) returns (m1: Match)
    requires fuel > 0 && Alike(m, a, b) && e in m && s.For? && !(s.init.Some? && s.init.value.Let?)
    ensures Same(m, RunFor(Sharing(f), fuel, a, e, s, labels), RunFor(Copying(f), fuel, b, m[e], s, labels), m1)
    decreases fuel, 1
  {
    hide Alike, Run;
    if s.init.None? {
      m1 := RunSame(f, fuel - 1, m, a, b, e, Loop(false, s.cond, s.update, s.body1, labels, false));
    } else {
      m1 := RunSame(f, fuel - 1, m, a, b, e, Exec(s.init.value, []));
      var (r, a1) := Run(Sharing(f), fuel - 1, a, e, Exec(s.init.value, []));
      var (_, b1) := Run(Copying(f), fuel - 1, b, m[e], Exec(s.init.value, []));
      if r.Done? { m1 := ThenSame(f, fuel - 1, m, m1, a1, b1, e, Loop(false, s.cond, s.update, s.body1, labels, false)); }
    }
  }

  lemma QuietFor(s: Stmt, labels: seq<Name>)
    requires s.For? && s.init.Some? && s.init.value.Let? && !StmtCaptures(s)
    ensures DeclsQuiet(s.init.value.decls) && Quiet(Loop(false, s.cond, s.update, s.body1, labels, false))
  {
    assert !StmtCaptures(s.init.value);
  }

  /** A loop that captures: both runs copy. */
  lemma LetForUnfolds(w: World, fuel: nat, st: State, e: Loc, decls: seq<Declarator>, cond: Option<Expr>, update: Option<Expr>,
                      body: Stmt, labels: seq<Name>, copy: bool)
    requires fuel > 0
    ensures var (r, st1) := Run(w, fuel - 1, Push(st, e, DeadNames(decls)), |st.envs|, Declare(decls));
      RunLetFor(w, fuel, st, e, decls, cond, update, body, labels, copy)
        == if r.Done? then RunLetLoop(w, fuel, st1, |st.envs|, cond, update, body, labels, copy) else (r, st1)
  {
    hide Run, RunLetLoop, Push, DeadNames;
  }

  lemma {:induction false} CopiedForSame(f: Val -> seq<Stmt>, fuel: nat, m: Match, a: State, b: State, e: Loc, decls: seq<Declarator>,
                                         cond: Option<Expr>, update: Option<Expr>, body: Stmt, labels: seq<Name>) returns (m1: Match)
    requires fuel > 0 && Alike(m, a, b) && e in m
    ensures Same(m, RunLetFor(Sharing(f), fuel, a, e, decls, cond, update, body, labels, true),
                 RunLetFor(Copying(f), fuel, b, m[e], decls, cond, update, body, labels, true), m1)
    decreases fuel, 1
  {
    var inner, m2 := |a.envs|, m[|a.envs| := |b.envs|];
    var a0, b0 := Push(a, e, DeadNames(decls)), Push(b, m[e], DeadNames(decls));
    PushAlike(m, a, b, e, DeadNames(decls));
    LetForUnfolds(Sharing(f), fuel, a, e, decls, cond, update, body, labels, true);
    LetForUnfolds(Copying(f), fuel, b, m[e], decls, cond, update, body, labels, true);
    hide Alike, Run, Push, RunLetLoop, RunLetFor;
    m1 := RunSame(f, fuel - 1, m2, a0, b0, inner, Declare(decls));
    var (r, a1) := Run(Sharing(f), fuel - 1, a0, inner, Declare(decls));
    var (_, b1) := Run(Copying(f), fuel - 1, b0, |b.envs|, Declare(decls));
    ExtendsThen(m, m2, m1);
    if r.Done? { m1 := CopiedLoopSame(f, fuel, m, m1, a1, b1, inner, cond, update, body, labels); }
  }

  lemma {:induction false} CopiedLoopSame(f: Val -> seq<Stmt>, fuel: nat, m0: Match, m: Match, a: State, b: State, e: Loc,
                                          cond: Option<Expr>, update: Option<Expr>, body: Stmt, labels: seq<Name>) returns (m1: Match)
    requires fuel > 0 && Alike(m, a, b) && Extends(m0, m) && e in m
    ensures Same(m0, RunLetLoop(Sharing(f), fuel, a, e, cond, update, body, labels, true),
                 RunLetLoop(Copying(f), fuel, b, m[e], cond, update, body, labels, true), m1)
    decreases fuel, 0
  {
    var m2 := m[|a.envs| := |b.envs|];
    CopyAlike(m, a, b, e);
    hide Alike, Run, CopyEnv;
    m1 := RunSame(f, fuel - 1, m2, CopyEnv(a, e), CopyEnv(b, m[e]), |a.envs|, Loop(false, cond, update, body, labels, true));
    ExtendsThen(m0, m, m2);
    ExtendsThen(m0, m2, m1);
  }

  // A loop that does not capture: one run shares its environment, the other copies it.

  /** The pairs of `m` do not concern what is hidden. */
  ghost predicate Outside(m: Match, hidden: set<Loc>, n: nat) {
    forall x | x in m :: x !in hidden && x < n
  }

  /** Within a loop that one run shares and the other copies: `e` and what is below it are
      hidden in the sharing run, and `m0` is what held before the loop. */
  ghost predicate Sharable(m0: Match, m: Match, a: State, b: State, e: Loc, hidden: set<Loc>) {
    && Alike(m, a, b) && Extends(m0, m) && Outside(m0, hidden, |a.envs|)
    && e in m && e in hidden && Hidden(a, hidden)
    && a.envs[e].parent.Some? && a.envs[e].parent.value !in hidden
  }

  /** A task of the loop that both runs take. */
  lemma {:induction false} StepShared(f: Val -> seq<Stmt>, fuel: nat, m0: Match, m: Match, a: State, b: State, e: Loc,
                                      hidden: set<Loc>, t: Task)
      returns (m1: Match, h: set<Loc>)
    requires Sharable(m0, m, a, b, e, hidden) && Quiet(t)
    ensures var (ra, a1), (rb, b1) := Run(Sharing(f), fuel, a, e, t), Run(Copying(f), fuel, b, m[e], t);
      ra == rb && Sharable(m0, m1, a1, b1, e, h) && m1[e] == m[e] && Same(m0, (ra, a1), (rb, b1), m1)
    decreases fuel, 10
  {
    m1 := RunSame(f, fuel, m, a, b, e, t);
    h := RunKept(Sharing(f), fuel, a, e, t, hidden);
    ExtendsThen(m0, m, m1);
    hide Alike, Run, Quiet;
  }

  /** The copying run makes its copy. */
  lemma RebindShared(m0: Match, m: Match, a: State, b: State, e: Loc, hidden: set<Loc>)
    requires Sharable(m0, m, a, b, e, hidden)
    ensures Sharable(m0, Rebound(m, hidden, e, |b.envs|), a, CopyEnv(b, m[e]), e, hidden)
    ensures Rebound(m, hidden, e, |b.envs|)[e] == |b.envs|
  {
    RebindAlike(m, a, b, e, hidden);
    ReboundAt(m, hidden, e, |b.envs|);
    hide Alike, Hidden, CopyEnv, Rebound;
  }

  lemma {:induction false} LoopShared(f: Val -> seq<Stmt>, fuel: nat, m0: Match, m: Match, a: State, b: State, e: Loc, hidden: set<Loc>,
                                      cond: Option<Expr>, update: Option<Expr>, body: Stmt, labels: seq<Name>) returns (m1: Match)
    requires Sharable(m0, m, a, b, e, hidden) && Quiet(Loop(false, cond, update, body, labels, false))
    ensures Same(m0, Run(Sharing(f), fuel, a, e, Loop(false, cond, update, body, labels, false)),
                 Run(Copying(f), fuel, b, m[e], Loop(false, cond, update, body, labels, true)), m1)
    decreases fuel, 9
  {
    m1 := m;
    if fuel > 0 {
      hide RunExpr, RunAll, RunStmt, RunStmts, RunDecls, RunPick, RunApply, RunLoop, Alike, Sharable;
      m1 := TurnShared(f, fuel, m0, m, a, b, e, hidden, cond, update, body, labels);
    } else {
      hide Alike, Hidden;
    }
  }

  lemma SharableParts(m0: Match, m: Match, a: State, b: State, e: Loc, hidden: set<Loc>)
    requires Sharable(m0, m, a, b, e, hidden)
    ensures Alike(m, a, b) && Extends(m0, m) && e in m
  {
    hide Alike, Extends, Hidden;
  }

  /** The test of a loop that has one. */
  lemma {:induction false} TestShared(f: Val -> seq<Stmt>, fuel: nat, m0: Match, m: Match, a: State, b: State, e: Loc, hidden: set<Loc>,
                                      test: Expr, update: Option<Expr>, body: Stmt, labels: seq<Name>) returns (m1: Match)
    requires fuel > 0 && e in m && Sharable(m0, m, a, b, e, hidden)
    requires Quiet(Loop(false, Some(test), update, body, labels, false)) && Quiet(Eval(test))
    ensures Same(m0, RunLoop(Sharing(f), fuel, a, e, false, Some(test), update, body, labels, false),
                 RunLoop(Copying(f), fuel, b, m[e], false, Some(test), update, body, labels, true), m1)
    decreases fuel, 3, 0
  {
    hide Alike, Run, RunIteration, Sharable, Quiet;
    var h;
    m1, h := StepShared(f, fuel - 1, m0, m, a, b, e, hidden, Eval(test));
    var (t, a1) := Run(Sharing(f), fuel - 1, a, e, Eval(test));
    var (_, b1) := Run(Copying(f), fuel - 1, b, m[e], Eval(test));
    SharableParts(m0, m1, a1, b1, e, h);
    if t.V? && Truthy(t.v) { m1 := IterationShared(f, fuel, m0, m1, a1, b1, e, h, Some(test), update, body, labels); }
  }

  lemma {:induction false} TurnShared(f: Val -> seq<Stmt>, fuel: nat, m0: Match, m: Match, a: State, b: State, e: Loc, hidden: set<Loc>,
                                      cond: Option<Expr>, update: Option<Expr>, body: Stmt, labels: seq<Name>) returns (m1: Match)
    requires fuel > 0 && Sharable(m0, m, a, b, e, hidden) && Quiet(Loop(false, cond, update, body, labels, false))
    ensures Same(m0, RunLoop(Sharing(f), fuel, a, e, false, cond, update, body, labels, false),
                 RunLoop(Copying(f), fuel, b, m[e], false, cond, update, body, labels, true), m1)
    decreases fuel, 3, 1
  {
    SharableParts(m0, m, a, b, e, hidden);
    hide Alike, Run, RunIteration, Sharable;
    if cond.None? {
      m1 := IterationShared(f, fuel, m0, m, a, b, e, hidden, cond, update, body, labels);
    } else {
      m1 := TestShared(f, fuel, m0, m, a, b, e, hidden, cond.value, update, body, labels);
    }
  }

  lemma {:induction false} IterationShared(f: Val -> seq<Stmt>, fuel: nat, m0: Match, m: Match, a: State, b: State, e: Loc, hidden: set<Loc>,
                                           cond: Option<Expr>, update: Option<Expr>, body: Stmt, labels: seq<Name>) returns (m1: Match)
    requires fuel > 0 && Sharable(m0, m, a, b, e, hidden) && Quiet(Loop(false, cond, update, body, labels, false))
    requires e in m
    ensures Same(m0, RunIteration(Sharing(f), fuel, a, e, cond, update, body, labels, false),
                 RunIteration(Copying(f), fuel, b, m[e], cond, update, body, labels, true), m1)
    decreases fuel, 2
  {
    hide Alike, Run, RunNext, CopyEnv, Sharable;
    var h;
    m1, h := StepShared(f, fuel - 1, m0, m, a, b, e, hidden, Exec(body, []));
    var (r, a1) := Run(Sharing(f), fuel - 1, a, e, Exec(body, []));
    var (_, b1) := Run(Copying(f), fuel - 1, b, m[e], Exec(body, []));
    if GoesOn(r, labels) {
      hide Quiet;
      m1 := NextShared(f, fuel, m0, m1, a1, b1, e, h, cond, update, body, labels);
    }
  }

  lemma {:induction false} NextShared(f: Val -> seq<Stmt>, fuel: nat, m0: Match, m: Match, a: State, b: State, e: Loc, hidden: set<Loc>,
                                      cond: Option<Expr>, update: Option<Expr>, body: Stmt, labels: seq<Name>) returns (m1: Match)
    requires fuel > 0 && Sharable(m0, m, a, b, e, hidden) && Quiet(Loop(false, cond, update, body, labels, false))
    ensures Same(m0, RunNext(Sharing(f), fuel, a, e, cond, update, body, labels, false),
                 RunNext(Copying(f), fuel, CopyEnv(b, m[e]), |b.envs|, cond, update, body, labels, true), m1)
    decreases fuel, 1
  {
    RebindShared(m0, m, a, b, e, hidden);
    hide *;
    m1 := RestShared(f, fuel, m0, Rebound(m, hidden, e, |b.envs|), a, CopyEnv(b, m[e]), e, hidden, cond, update, body, labels);
  }

  /** From the update on, when there is one. */
  lemma {:induction false} StepThenShared(f: Val -> seq<Stmt>, fuel: nat, m0: Match, m: Match, a: State, b: State, e: Loc, hidden: set<Loc>,
                                          cond: Option<Expr>, step: Expr, body: Stmt, labels: seq<Name>) returns (m1: Match)
    requires fuel > 0 && e in m && Sharable(m0, m, a, b, e, hidden)
    requires Quiet(Loop(false, cond, Some(step), body, labels, false)) && Quiet(Eval(step))
    ensures Same(m0, RunNext(Sharing(f), fuel, a, e, cond, Some(step), body, labels, false),
                 RunNext(Copying(f), fuel, b, m[e], cond, Some(step), body, labels, true), m1)
    decreases fuel, 0, 0
  {
    hide Sharable, Quiet, Run, Alike;
    var h;
    m1, h := StepShared(f, fuel - 1, m0, m, a, b, e, hidden, Eval(step));
    var (u, a1) := Run(Sharing(f), fuel - 1, a, e, Eval(step));
    var (_, b1) := Run(Copying(f), fuel - 1, b, m[e], Eval(step));
    if u.V? { m1 := LoopShared(f, fuel - 1, m0, m1, a1, b1, e, h, cond, Some(step), body, labels); }
  }

  lemma {:induction false} RestShared(f: Val -> seq<Stmt>, fuel: nat, m0: Match, m: Match, a: State, b: State, e: Loc, hidden: set<Loc>,
                                      cond: Option<Expr>, update: Option<Expr>, body: Stmt, labels: seq<Name>) returns (m1: Match)
    requires
      && fuel > 0
      && e in m
      && Sharable(m0, m, a, b, e, hidden)
      && Quiet(Loop(false, cond, update, body, labels, false))
    ensures Same(m0, RunNext(Sharing(f), fuel, a, e, cond, update, body, labels, false),
                 RunNext(Copying(f), fuel, b, m[e], cond, update, body, labels, true), m1)
    decreases fuel, 0, 1
  {
    hide Sharable, Run, Alike;
    if update.None? {
      m1 := LoopShared(f, fuel - 1, m0, m, a, b, e, hidden, cond, None, body, labels);
    } else {
      m1 := StepThenShared(f, fuel, m0, m, a, b, e, hidden, cond, update.value, body, labels);
    }
  }

  lemma PushShared(m: Match, a: State, b: State, e: Loc, vars: map<Name, Slot>)
    requires Alike(m, a, b) && e in m
    ensures Sharable(m, m[|a.envs| := |b.envs|], Push(a, e, vars), Push(b, m[e], vars), |a.envs|, {|a.envs|})
  {
    PushAlike(m, a, b, e, vars);
    var a1 := Push(a, e, vars);
    forall i | 0 <= i < |a1.objs| && a1.objs[i].Fun?
      ensures a1.objs[i].env < |a.envs|
    {
      assert ObjsMatch(m, a.objs[i], b.objs[i]);
    }
    hide ObjsMatch, EnvsMatch, Injective;
  }

  lemma {:induction false} SharedForSame(f: Val -> seq<Stmt>, fuel: nat, m: Match, a: State, b: State, e: Loc, decls: seq<Declarator>,
                                         cond: Option<Expr>, update: Option<Expr>, body: Stmt, labels: seq<Name>) returns (m1: Match)
    requires
      && fuel > 0
      && Alike(m, a, b)
      && e in m
      && DeclsQuiet(decls)
      && Quiet(Loop(false, cond, update, body, labels, false))
    ensures Same(m, RunLetFor(Sharing(f), fuel, a, e, decls, cond, update, body, labels, false),
                 RunLetFor(Copying(f), fuel, b, m[e], decls, cond, update, body, labels, true), m1)
    decreases fuel, 1
  {
    var inner := |a.envs|;
    var a0, b0 := Push(a, e, DeadNames(decls)), Push(b, m[e], DeadNames(decls));
    PushShared(m, a, b, e, DeadNames(decls));
    QuietDecls(decls);
    LetForUnfolds(Sharing(f), fuel, a, e, decls, cond, update, body, labels, false);
    LetForUnfolds(Copying(f), fuel, b, m[e], decls, cond, update, body, labels, true);
    hide Alike, Run, Push, RunLetLoop, RunLetFor, Sharable, Quiet, DeclsQuiet;
    var h;
    m1, h := StepShared(f, fuel - 1, m, m[|a.envs| := |b.envs|], a0, b0, inner, {inner}, Declare(decls));
    var (r, a1) := Run(Sharing(f), fuel - 1, a0, inner, Declare(decls));
    var (_, b1) := Run(Copying(f), fuel - 1, b0, |b.envs|, Declare(decls));
    if r.Done? { m1 := SharedLoopSame(f, fuel, m, m1, a1, b1, inner, h, cond, update, body, labels); }
  }

  lemma LetLoopUnfolds(f: Val -> seq<Stmt>, fuel: nat, st: State, e: Loc, cond: Option<Expr>, update: Option<Expr>,
                       body: Stmt, labels: seq<Name>)
    requires fuel > 0
    ensures RunLetLoop(Sharing(f), fuel, st, e, cond, update, body, labels, false)
      == Run(Sharing(f), fuel - 1, st, e, Loop(false, cond, update, body, labels, false))
    ensures RunLetLoop(Copying(f), fuel, st, e, cond, update, body, labels, true)
      == Run(Copying(f), fuel - 1, CopyEnv(st, e), |st.envs|, Loop(false, cond, update, body, labels, true))
  {
    hide Run, CopyEnv;
  }

  lemma {:induction false} SharedLoopSame(f: Val -> seq<Stmt>, fuel: nat, m0: Match, m: Match, a: State, b: State, e: Loc, hidden: set<Loc>,
                                          cond: Option<Expr>, update: Option<Expr>, body: Stmt, labels: seq<Name>) returns (m1: Match)
    requires
      && fuel > 0
      && e in m
      && Sharable(m0, m, a, b, e, hidden)
      && Quiet(Loop(false, cond, update, body, labels, false))
    ensures Same(m0, RunLetLoop(Sharing(f), fuel, a, e, cond, update, body, labels, false),
                 RunLetLoop(Copying(f), fuel, b, m[e], cond, update, body, labels, true), m1)
    decreases fuel, 0
  {
    hide *;
    RebindShared(m0, m, a, b, e, hidden);
    LetLoopUnfolds(f, fuel, a, e, cond, update, body, labels);
    LetLoopUnfolds(f, fuel, b, m[e], cond, update, body, labels);
    m1 := LoopShared(f, fuel - 1, m0, Rebound(m, hidden, e, |b.envs|), a, CopyEnv(b, m[e]), e, hidden, cond, update, body, labels);
  }

  // ── Whole programs ───────────────────────────────────────────────────────

  /** For every program and every bound on its depth, sharing the environments of loops
      that do not capture gives the completion, the output and the heap that copying
      them in each iteration gives. */
  lemma SharingPreservesMeaning(f: Val -> seq<Stmt>, fuel: nat, program: seq<Stmt>) returns (m: Match)
    ensures var (ra, a), (rb, b) := RunProgram(Sharing(f), fuel, program), RunProgram(Copying(f), fuel, program);
      && ra == rb && a.out == b.out
      && Alike(m, a, b) && 1 < |a.envs| && 1 < |b.envs| && a.envs[1].vars == b.envs[1].vars
  {
    var st := State([Env(None, map["print" := Live(Print), EVAL := Live(EvalFn)])], [], []);
    var m0: Match := map[0 := 0];
    assert Alike(m0, st, st);
    EnterAlike(m0, st, st, 0, program, map[]);
    var st1, m1 := Enter(st, 0, program, map[]), m0[1 := 1];
    hide Run, Enter, Alike;
    m := RunSame(f, fuel, m1, st1, st1, 1, ExecAll(program));
    AlikeOutput(m, RunProgram(Sharing(f), fuel, program).1, RunProgram(Copying(f), fuel, program).1);
  }

  lemma AlikeOutput(m: Match, a: State, b: State)
    requires Alike(m, a, b) && 1 in m && m[1] == 1
    ensures a.out == b.out && 1 < |a.envs| && 1 < |b.envs| && a.envs[1].vars == b.envs[1].vars
  {
  }
}
