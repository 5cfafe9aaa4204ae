// The analyzer reports nothing exactly for the programs that are well scoped.
module ResolutionCorrect {
  import opened Common
  import opened Ast
  import opened ScopeStack
  import opened SymbolTables
  import opened NameResolution
  import opened ScopingRules

  // What a stack of scopes makes visible.
  function Flat(scopes: Scopes): map<string, Symbol> {
    if scopes == [] then map[] else Flat(scopes[..|scopes| - 1]) + scopes[|scopes| - 1]
  }

  lemma {:induction false} FlatBelow(scopes: Scopes, x: string, n: nat)
    requires n <= |scopes|
    ensures x in Flat(scopes[..n]) <==> DepthBelow(scopes, x, n) >= 0
    ensures x in Flat(scopes[..n]) ==> Flat(scopes[..n])[x] == scopes[DepthBelow(scopes, x, n)][x]
    decreases n
  {
    if n > 0 {
      assert scopes[..n][..n - 1] == scopes[..n - 1] && scopes[..n][n - 1] == scopes[n - 1];
      FlatBelow(scopes, x, n - 1);
    }
  }

  lemma FlatLookup(scopes: Scopes, x: string)
    ensures Lookup(scopes, x) == if x in Flat(scopes) then Some(Flat(scopes)[x]) else None
  {
    assert scopes[..|scopes|] == scopes;
    FlatBelow(scopes, x, |scopes|);
  }

  // The scopes of a state say the same as an environment.
  ghost predicate Matches(st: State, env: Env) {
    && st.scopes != []
    && env.visible == Flat(st.scopes)
    && env.here == st.scopes[|st.scopes| - 1].Keys
  }

  // A visit reports nothing new exactly if the construct is in order, and leads to the
  // environment after it.
  ghost predicate Agree(st: State, r: State, ok: bool, env: Env) {
    Follows(st, r) && (r.errors == st.errors <==> ok) && Matches(r, env)
  }

  lemma AgreeThen(st: State, mid: State, r: State, ok1: bool, ok2: bool, env1: Env, env: Env)
    requires Agree(st, mid, ok1, env1) && Agree(mid, r, ok2, env)
    ensures Agree(st, r, ok1 && ok2, env)
  {
    assert st.errors <= mid.errors <= r.errors;
    if r.errors == st.errors {
      assert |mid.errors| == |st.errors|;
    }
  }

  lemma FlatExtend(scopes: Scopes, x: string, s: Symbol)
    requires scopes != []
    ensures Flat(Declare(scopes, x, s)) == Flat(scopes)[x := s]
  {
    var after := Declare(scopes, x, s);
    assert after[..|after| - 1] == scopes[..|scopes| - 1];
  }

  lemma DefineAgrees(st: State, x: string, s: Symbol, env: Env)
    requires Matches(st, env)
    ensures Agree(st, DefineIn(st, x, s), true, Declared(env, x, s))
  {
    if x !in env.here {
      FlatExtend(st.scopes, x, s);
    }
  }

  lemma DefineOnceAgrees(st: State, x: string, s: Symbol, env: Env)
    requires Matches(st, env)
    ensures Agree(st, DefineOnce(st, x, s), x !in env.here, Declared(env, x, s))
  {
    DefineAgrees(st, x, s, env);
  }

  // Around an inner scope.

  lemma EnterMatches(st: State, env: Env)
    requires Matches(st, env)
    ensures Matches(Enter(st), Inside(env))
  {
    assert Enter(st).scopes[..|st.scopes|] == st.scopes;
    assert Flat(st.scopes) + map[] == Flat(st.scopes);
  }

  lemma LeaveAgrees(st: State, r: State, ok: bool, inner: Env, env: Env)
    requires Matches(st, env) && Agree(Enter(st), r, ok, inner)
    ensures Agree(st, Leave(r), ok, env)
  {
    assert Enter(st).scopes[..|st.scopes|] == st.scopes;
    assert Leave(r).scopes == st.scopes;
  }

  // Expressions.

  lemma IdentAgrees(x: string, st: State, env: Env)
    requires Matches(st, env)
    ensures Agree(st, VisitIdent(x, st), x in env.visible, env)
  {
    FlatLookup(st.scopes, x);
  }

  lemma CalleeAgrees(x: string, count: nat, st: State, env: Env)
    requires Matches(st, env)
    ensures Agree(st, VisitCallee(x, count, st), Callable(x, count, env), env)
  {
    FlatLookup(st.scopes, x);
  }

  lemma TargetAgrees(x: string, st: State, env: Env)
    requires Matches(st, env)
    ensures Agree(st, VisitTarget(x, st), Assignable(x, env), Implied(Ident(x), env))
  {
    FlatLookup(st.scopes, x);
    if x !in env.visible {
      DefineAgrees(st, x, IMPLIED, env);
    }
  }

  lemma {:induction false} ExprAgrees(e: Expr, st: State, env: Env)
    requires Matches(st, env)
    ensures Agree(st, VisitExpr(e, st), OkExpr(e, env), AfterExpr(e, env))
    decreases e, 2
  {
    match e
    case Ident(x) => IdentAgrees(x, st, env);
    case Binary(_, a, b) =>
      ExprAgrees(a, st, env);
      var mid, env1 := VisitExpr(a, st), AfterExpr(a, env);
      ExprAgrees(b, mid, env1);
      AgreeThen(st, mid, VisitExpr(b, mid), OkExpr(a, env), OkExpr(b, env1), env1, AfterExpr(b, env1));
    case Unary(_, x) => ExprAgrees(x, st, env);
    case AssignExpr(_, _, _) => AssignAgrees(e, st, env);
    case Call(_, _) => CallAgrees(e, st, env);
    case Member(obj, _) => ExprAgrees(obj, st, env);
    case ArrayLit(es) => ExprsAgree(es, st, env);
    case _ =>
  }

  lemma {:induction false} AssignAgrees(e: Expr, st: State, env: Env)
    requires e.AssignExpr? && Matches(st, env)
    ensures Agree(st, VisitExpr(e, st), OkExpr(e, env), AfterExpr(e, env))
    decreases e, 1
  {
    var AssignExpr(_, target, value) := e;
    var st1 := if target.Ident? then VisitTarget(target.name, st) else st;
    var known := Implied(target, env);
    if target.Ident? {
      TargetAgrees(target.name, st, env);
    }
    var ok1 := target.Ident? ==> Assignable(target.name, env);
    assert Agree(st, st1, ok1, known);
    var st2, env2 := VisitExpr(target, st1), AfterExpr(target, known);
    ExprAgrees(target, st1, known);
    AgreeThen(st, st1, st2, ok1, OkExpr(target, known), known, env2);
    ExprAgrees(value, st2, env2);
    AgreeThen(st, st2, VisitExpr(value, st2), ok1 && OkExpr(target, known), OkExpr(value, env2), env2,
              AfterExpr(value, env2));
  }

  lemma {:induction false} CallAgrees(e: Expr, st: State, env: Env)
    requires e.Call? && Matches(st, env)
    ensures Agree(st, VisitExpr(e, st), OkExpr(e, env), AfterExpr(e, env))
    decreases e, 1
  {
    var Call(callee, args) := e;
    var named := callee.Ident?;
    var mid := if named then VisitCallee(callee.name, |args|, st) else VisitExpr(callee, st);
    var env1 := if named then env else AfterExpr(callee, env);
    var ok := if named then Callable(callee.name, |args|, env) else OkExpr(callee, env);
    if named {
      CalleeAgrees(callee.name, |args|, st, env);
    } else {
      ExprAgrees(callee, st, env);
    }
    ExprsAgree(args, mid, env1);
    AgreeThen(st, mid, VisitExprs(args, mid), ok, OkExprs(args, env1), env1, AfterExprs(args, env1));
  }

  lemma {:induction false} ExprsAgree(es: seq<Expr>, st: State, env: Env)
    requires Matches(st, env)
    ensures Agree(st, VisitExprs(es, st), OkExprs(es, env), AfterExprs(es, env))
    decreases es, 0
  {
    if es != [] {
      var mid, env1 := VisitExpr(es[0], st), AfterExpr(es[0], env);
      ExprAgrees(es[0], st, env);
      ExprsAgree(es[1..], mid, env1);
      AgreeThen(st, mid, VisitExprs(es[1..], mid), OkExpr(es[0], env), OkExprs(es[1..], env1), env1,
                AfterExprs(es[1..], env1));
    }
  }

  lemma OptionAgrees(e: Option<Expr>, st: State, env: Env)
    requires Matches(st, env)
    ensures Agree(st, VisitOption(e, st), OkOption(e, env), AfterOption(e, env))
  {
    if e.Some? {
      ExprAgrees(e.value, st, env);
    }
  }

  // Statements.

  lemma {:induction false} StmtAgrees(s: Stmt, fn: string, st: State, env: Env)
    requires Matches(st, env)
    ensures Agree(st, VisitStmt(s, fn, st), OkStmt(s, fn != "", env), AfterStmt(s, fn != "", env))
    decreases s, 2
  {
    match s
    case Block(ss) =>
      EnterMatches(st, env);
      StmtsAgree(ss, fn, Enter(st), Inside(env));
      LeaveAgrees(st, VisitStmts(ss, fn, Enter(st)), OkStmts(ss, fn != "", Inside(env)),
                  AfterStmts(ss, fn != "", Inside(env)), env);
    case ExprStmt(e) => ExprAgrees(e, st, env);
    case VarDecl(_, _, _) => VarDeclAgrees(s, fn, st, env);
    case Return(result) => OptionAgrees(result, st, env);
    case If(_, _, _) => IfAgrees(s, fn, st, env);
    case While(c, body) => LoopAgrees(c, body, fn, st, env);
    case Vloop(c, body) => LoopAgrees(c, body, fn, st, env);
    case For(_, _, _) => ForAgrees(s, fn, st, env);
    case Break =>
    case Continue =>
    case Match(subject, arms) =>
      var mid, env1 := VisitExpr(subject, st), AfterExpr(subject, env);
      ExprAgrees(subject, st, env);
      ArmsAgree(arms, fn, mid, env1);
      AgreeThen(st, mid, VisitArms(arms, fn, mid), OkExpr(subject, env), OkArms(arms, fn != "", env1), env1,
                AfterArms(arms, fn != "", env1));
  }

  lemma VarDeclAgrees(s: Stmt, fn: string, st: State, env: Env)
    requires s.VarDecl? && Matches(st, env)
    ensures Agree(st, VisitStmt(s, fn, st), OkStmt(s, fn != "", env), AfterStmt(s, fn != "", env))
  {
    var VarDecl(kind, x, init) := s;
    var mid, env1 := VisitOption(init, st), AfterOption(init, env);
    OptionAgrees(init, st, env);
    DefineOnceAgrees(mid, x, VariableSymbol(kind), env1);
    AgreeThen(st, mid, DefineOnce(mid, x, VariableSymbol(kind)), OkOption(init, env), x !in env1.here, env1,
              Declared(env1, x, VariableSymbol(kind)));
  }

  // A condition, then the statement it guards.
  lemma {:induction false} LoopAgrees(c: Expr, body: Stmt, fn: string, st: State, env: Env)
    requires Matches(st, env)
    ensures Agree(st, VisitStmt(body, fn, VisitExpr(c, st)), OkExpr(c, env) &&
                  OkStmt(body, fn != "", AfterExpr(c, env)),
                  AfterStmt(body, fn != "", AfterExpr(c, env)))
    decreases body, 3
  {
    var mid, env1 := VisitExpr(c, st), AfterExpr(c, env);
    ExprAgrees(c, st, env);
    StmtAgrees(body, fn, mid, env1);
    AgreeThen(st, mid, VisitStmt(body, fn, mid), OkExpr(c, env), OkStmt(body, fn != "", env1), env1,
              AfterStmt(body, fn != "", env1));
  }

  lemma {:induction false} IfAgrees(s: Stmt, fn: string, st: State, env: Env)
    requires s.If? && Matches(st, env)
    ensures Agree(st, VisitStmt(s, fn, st), OkStmt(s, fn != "", env), AfterStmt(s, fn != "", env))
    decreases s, 1
  {
    var If(c, t, other) := s;
    LoopAgrees(c, t, fn, st, env);
    if other.Some? {
      var mid, env1 := VisitStmt(t, fn, VisitExpr(c, st)), AfterStmt(t, fn != "", AfterExpr(c, env));
      StmtAgrees(other.value, fn, mid, env1);
      AgreeThen(st, mid, VisitStmt(other.value, fn, mid), OkExpr(c, env) && OkStmt(t, fn != "", AfterExpr(c, env)),
                OkStmt(other.value, fn != "", env1), env1, AfterStmt(other.value, fn != "", env1));
    }
  }

  lemma {:induction false} ForAgrees(s: Stmt, fn: string, st: State, env: Env)
    requires s.For? && Matches(st, env)
    ensures Agree(st, VisitStmt(s, fn, st), OkStmt(s, fn != "", env), AfterStmt(s, fn != "", env))
    decreases s, 1
  {
    var For(x, iterable, body) := s;
    var st1, inner := DefineIn(Enter(st), x, LOOP_VARIABLE), Extend(Inside(env), x, LOOP_VARIABLE);
    EnterMatches(st, env);
    DefineAgrees(Enter(st), x, LOOP_VARIABLE, Inside(env));
    LoopAgrees(iterable, body, fn, st1, inner);
    var ok := OkExpr(iterable, inner) && OkStmt(body, fn != "", AfterExpr(iterable, inner));
    var last := AfterStmt(body, fn != "", AfterExpr(iterable, inner));
    AgreeThen(Enter(st), st1, VisitStmt(body, fn, VisitExpr(iterable, st1)), true, ok, inner, last);
    LeaveAgrees(st, VisitStmt(body, fn, VisitExpr(iterable, st1)), ok, last, env);
  }

  lemma {:induction false} StmtsAgree(ss: seq<Stmt>, fn: string, st: State, env: Env)
    requires Matches(st, env)
    ensures Agree(st, VisitStmts(ss, fn, st), OkStmts(ss, fn != "", env), AfterStmts(ss, fn != "", env))
    decreases ss, 0
  {
    if ss != [] {
      var mid, env1 := VisitStmt(ss[0], fn, st), AfterStmt(ss[0], fn != "", env);
      StmtAgrees(ss[0], fn, st, env);
      StmtsAgree(ss[1..], fn, mid, env1);
      AgreeThen(st, mid, VisitStmts(ss[1..], fn, mid), OkStmt(ss[0], fn != "", env), OkStmts(ss[1..], fn != "", env1),
                env1,
                AfterStmts(ss[1..], fn != "", env1));
    }
  }

  lemma {:induction false} ArmsAgree(arms: seq<MatchArm>, fn: string, st: State, env: Env)
    requires Matches(st, env)
    ensures Agree(st, VisitArms(arms, fn, st), OkArms(arms, fn != "", env), AfterArms(arms, fn != "", env))
    decreases arms, 0
  {
    if arms != [] {
      assert (arms decreases to arms[0]) && (arms[0] decreases to arms[0].body);
      var MatchArm(pattern, body) := arms[0];
      var st1, env1 := VisitOption(pattern, st), AfterOption(pattern, env);
      var st2, env2 := VisitStmt(body, fn, st1), AfterStmt(body, fn != "", env1);
      OptionAgrees(pattern, st, env);
      StmtAgrees(body, fn, st1, env1);
      AgreeThen(st, st1, st2, OkOption(pattern, env), OkStmt(body, fn != "", env1), env1, env2);
      ArmsAgree(arms[1..], fn, st2, env2);
      AgreeThen(st, st2, VisitArms(arms[1..], fn, st2), OkOption(pattern, env) && OkStmt(body, fn != "", env1),
                OkArms(arms[1..], fn != "", env2), env2, AfterArms(arms[1..], fn != "", env2));
    }
  }

  // Declarations.

  ghost predicate Apart(xs: seq<string>, names: set<string>) {
    AllDifferent(xs) && forall x :: x in xs ==> x !in names
  }

  lemma ApartStep(xs: seq<string>, names: set<string>)
    requires xs != []
    ensures Apart(xs, names) <==> xs[0] !in names && Apart(xs[1..], names + {xs[0]})
  {
    if Apart(xs, names) {
      assert xs[0] in xs;
      forall x | x in xs[1..] ensures x !in names + {xs[0]} {
        var i :| 0 <= i < |xs[1..]| && xs[1..][i] == x;
        assert xs[i + 1] == x;
      }
    }
    if xs[0] !in names && Apart(xs[1..], names + {xs[0]}) {
      forall i, j | 0 <= i < j < |xs| ensures xs[i] != xs[j] {
        assert xs[j] == xs[1..][j - 1] && xs[j] in xs[1..];
        if i > 0 {
          assert xs[i] == xs[1..][i - 1];
        }
      }
      forall x | x in xs ensures x !in names {
        if x != xs[0] {
          assert x in xs[1..];
        }
      }
    }
  }

  lemma {:induction false} ParamsAgree(params: seq<string>, st: State, env: Env)
    requires Matches(st, env)
    ensures Agree(st, VisitParams(params, st), Apart(params, env.here), WithParams(params, env))
    decreases params
  {
    if params != [] {
      var x := params[0];
      var mid, env1 := DefineOnce(st, x, PARAMETER), Declared(env, x, PARAMETER);
      DefineOnceAgrees(st, x, PARAMETER, env);
      ParamsAgree(params[1..], mid, env1);
      AgreeThen(st, mid, VisitParams(params[1..], mid), x !in env.here, Apart(params[1..], env1.here), env1,
                WithParams(params[1..], env1));
      ApartStep(params, env.here);
      if x !in env.here {
        assert env1.here == env.here + {x};
      }
    }
  }

  lemma FunctionAgrees(f: FunctionDecl, st: State, env: Env)
    requires Matches(st, env)
    ensures Agree(st, VisitFunction(f, st), OkFunction(f, env), env)
  {
    var inner, mid := Inside(env), VisitParams(f.params, Enter(st));
    var known := WithParams(f.params, inner);
    EnterMatches(st, env);
    ParamsAgree(f.params, Enter(st), inner);
    match f.body
    case None => LeaveAgrees(st, mid, AllDifferent(f.params), known, env);
    case Some(s) =>
      StmtAgrees(s, f.name, mid, known);
      var ok, last := OkStmt(s, f.name != "", known), AfterStmt(s, f.name != "", known);
      AgreeThen(Enter(st), mid, VisitStmt(s, f.name, mid), AllDifferent(f.params), ok, known, last);
      LeaveAgrees(st, VisitStmt(s, f.name, mid), AllDifferent(f.params) && ok, last, env);
  }

  lemma DeclAgrees(d: Decl, st: State, env: Env)
    requires Matches(st, env)
    ensures Agree(st, VisitDecl(d, st), OkDecl(d, env), AfterDecl(d, env))
  {
    match d
    case Function(f) => FunctionAgrees(f, st, env);
    case Global(v) => StmtAgrees(v, "", st, env);
    case Import(path, alias) => DefineAgrees(st, if alias.Some? then alias.value else path, IMPORTED, env);
    case _ =>
  }

  lemma {:induction false} DeclsAgree(ds: seq<Decl>, st: State, env: Env)
    requires Matches(st, env)
    ensures Follows(st, VisitDecls(ds, st)) && (VisitDecls(ds, st).errors == st.errors <==> OkDecls(ds, env))
    decreases ds
  {
    if ds != [] {
      var mid, env1 := VisitDecl(ds[0], st), AfterDecl(ds[0], env);
      DeclAgrees(ds[0], st, env);
      DeclsAgree(ds[1..], mid, env1);
      assert st.errors <= mid.errors <= VisitDecls(ds, st).errors;
    }
  }

  lemma {:induction false} HoistAgrees(ds: seq<Decl>, st: State, env: Env)
    requires Matches(st, env)
    ensures Agree(st, Hoist(ds, st), Apart(HoistedNames(ds), env.here), WithHoisted(ds, env))
    decreases ds
  {
    if ds != [] {
      if ds[0].Function? || ds[0].TypeDecl? {
        var x := if ds[0].Function? then ds[0].fn.name else ds[0].name;
        var s := if ds[0].Function? then Symbol(SymbolKind.Function, false, |ds[0].fn.params|, false) else TYPE;
        var mid, env1 := DefineOnce(st, x, s), Declared(env, x, s);
        DefineOnceAgrees(st, x, s, env);
        HoistAgrees(ds[1..], mid, env1);
        AgreeThen(st, mid, Hoist(ds[1..], mid), x !in env.here, Apart(HoistedNames(ds[1..]), env1.here), env1,
                  WithHoisted(ds[1..], env1));
        HoistedStep(ds, x, env.here);
        if x !in env.here {
          assert env1.here == env.here + {x};
        }
      } else {
        HoistAgrees(ds[1..], st, env);
      }
    }
  }

  lemma HoistedStep(ds: seq<Decl>, x: string, names: set<string>)
    requires ds != [] && (ds[0].Function? || ds[0].TypeDecl?)
    requires x == if ds[0].Function? then ds[0].fn.name else ds[0].name
    ensures Apart(HoistedNames(ds), names) <==> x !in names && Apart(HoistedNames(ds[1..]), names + {x})
  {
    var xs := HoistedNames(ds);
    assert xs == [x] + HoistedNames(ds[1..]);
    assert xs[1..] == HoistedNames(ds[1..]);
    ApartStep(xs, names);
  }

  lemma {:induction false} BuiltinsAgree(names: seq<string>, st: State, env: Env)
    requires Matches(st, env)
    ensures Agree(st, DefineBuiltins(names, st), true, WithBuiltins(names, env))
    ensures WithBuiltins(names, env).here == env.here + (set x | x in names)
    decreases names
  {
    if names != [] {
      var mid, env1 := DefineIn(st, names[0], BUILTIN), Declared(env, names[0], BUILTIN);
      DefineAgrees(st, names[0], BUILTIN, env);
      BuiltinsAgree(names[1..], mid, env1);
      AgreeThen(st, mid, DefineBuiltins(names[1..], mid), true, true, env1, WithBuiltins(names[1..], env1));
      assert names == [names[0]] + names[1..];
    }
  }

  // Passes one and two report no error if and only if the module is well scoped.
  lemma AcceptsExactlyWellScoped(m: Module)
    ensures Analyze(m).errors == [] <==> WellScoped(m)
    ensures |Analyze(m).scopes| == 1
  {
    var start, empty := State([map[]], []), Env(map[], {});
    assert start.scopes[..0] == [] && Flat([]) + map[] == map[];
    assert Matches(start, empty);
    var st1, env1 := DefineBuiltins(BUILTINS, start), WithBuiltins(BUILTINS, empty);
    BuiltinsAgree(BUILTINS, start, empty);
    var st2 := Hoist(m.decls, st1);
    HoistAgrees(m.decls, st1, env1);
    DeclsAgree(m.decls, st2, GlobalEnv(m));
    assert st1.errors <= st2.errors <= Analyze(m).errors;
  }

  // An index expression is never looked into: `var v = x[x]` is accepted, whatever x is.
  lemma IndexNotLookedInto(m: Ast.Module, v: string, x: string)
    requires v !in BUILTINS && m.decls == [Global(VarDecl(Var, v, Some(Index(Ident(x), Ident(x)))))]
    ensures Analyze(m).errors == []
  {
    var env := WithBuiltins(BUILTINS, Env(map[], {}));
    BuiltinsHere(v);
    IndexInOrder(m.decls, v, x, env);
    AcceptsExactlyWellScoped(m);
  }

  lemma IndexInOrder(ds: seq<Decl>, v: string, x: string, env: Env)
    requires v !in env.here && ds == [Global(VarDecl(Var, v, Some(Index(Ident(x), Ident(x)))))]
    ensures HoistedNames(ds) == [] && WithHoisted(ds, env) == env && OkDecls(ds, env)
  {
    assert ds[1..] == [] && HoistedNames(ds[1..]) == [] && WithHoisted(ds[1..], env) == env;
    assert AfterExpr(Index(Ident(x), Ident(x)), env) == env && OkExpr(Index(Ident(x), Ident(x)), env);
    assert OkDecl(ds[0], env) && OkDecls(ds[1..], AfterDecl(ds[0], env));
  }

  lemma BuiltinsHere(v: string)
    requires v !in BUILTINS
    ensures v !in WithBuiltins(BUILTINS, Env(map[], {})).here
  {
    var start, empty := State([map[]], []), Env(map[], {});
    assert start.scopes[..0] == [] && Flat([]) + map[] == map[];
    assert Matches(start, empty);
    BuiltinsAgree(BUILTINS, start, empty);
  }
}
