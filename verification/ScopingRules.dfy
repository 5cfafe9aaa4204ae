// When a program is well scoped, said without a scope stack: each construct is checked
// against what is visible at it, and a block hands nothing on.
module ScopingRules {
  import opened Common
  import opened Ast
  import opened SymbolTables
  import opened NameResolution

  // The symbols visible at a place, and the names declared so far in the block around it.
  datatype Env = Env(visible: map<string, Symbol>, here: set<string>)

  function Extend(env: Env, x: string, s: Symbol): Env {
    Env(env.visible[x := s], env.here + {x})
  }

  // Names that are declared twice in a block keep their first meaning.
  function Declared(env: Env, x: string, s: Symbol): Env {
    if x in env.here then env else Extend(env, x, s)
  }

  function Inside(env: Env): Env {
    Env(env.visible, {})
  }

  // Assigning to an unknown name declares it from there on.
  function Implied(target: Expr, env: Env): Env {
    if target.Ident? && target.name !in env.visible then Extend(env, target.name, IMPLIED) else env
  }

  function AfterExpr(e: Expr, env: Env): Env
    decreases e, 1
  {
    match e
    case Binary(_, a, b) => AfterExpr(b, AfterExpr(a, env))
    case Unary(_, x) => AfterExpr(x, env)
    case AssignExpr(_, target, value) => AfterExpr(value, AfterExpr(target, Implied(target, env)))
    case Call(callee, args) => AfterExprs(args, if callee.Ident? then env else AfterExpr(callee, env))
    case Member(obj, _) => AfterExpr(obj, env)
    case ArrayLit(es) => AfterExprs(es, env)
    case _ => env
  }

  function AfterExprs(es: seq<Expr>, env: Env): Env
    decreases es, 0
  {
    if es == [] then env else AfterExprs(es[1..], AfterExpr(es[0], env))
  }

  // A name that may be assigned to.
  predicate Assignable(x: string, env: Env) {
    x in env.visible ==>
      var s := env.visible[x];
      s.kind != SymbolKind.Constant && s.kind != SymbolKind.Function && (s.kind == SymbolKind.Variable ==> s.isMut)
  }

  // A name that may be called with that many arguments.
  predicate Callable(x: string, count: nat, env: Env) {
    x in env.visible &&
    var s := env.visible[x];
    s.kind == SymbolKind.Function && (s.builtin || s.arity == 0 || s.arity == count)
  }

  predicate OkExpr(e: Expr, env: Env)
    decreases e, 1
  {
    match e
    case Ident(x) => x in env.visible
    case Binary(_, a, b) => OkExpr(a, env) && OkExpr(b, AfterExpr(a, env))
    case Unary(_, x) => OkExpr(x, env)
    case AssignExpr(_, target, value) =>
      var known := Implied(target, env);
      && (target.Ident? ==> Assignable(target.name, env))
      && OkExpr(target, known) && OkExpr(value, AfterExpr(target, known))
    case Call(callee, args) =>
      if callee.Ident? then Callable(callee.name, |args|, env) && OkExprs(args, env)
      else OkExpr(callee, env) && OkExprs(args, AfterExpr(callee, env))
    case Member(obj, _) => OkExpr(obj, env)
    case ArrayLit(es) => OkExprs(es, env)
    case _ => true
  }

  predicate OkExprs(es: seq<Expr>, env: Env)
    decreases es, 0
  {
    es == [] || (OkExpr(es[0], env) && OkExprs(es[1..], AfterExpr(es[0], env)))
  }

  predicate OkOption(e: Option<Expr>, env: Env) {
    e.Some? ==> OkExpr(e.value, env)
  }

  function AfterOption(e: Option<Expr>, env: Env): Env {
    if e.Some? then AfterExpr(e.value, env) else env
  }

  function AfterStmt(s: Stmt, inFunction: bool, env: Env): Env
    decreases s, 1
  {
    match s
    case Block(_) => env
    case ExprStmt(e) => AfterExpr(e, env)
    case VarDecl(kind, x, init) => Declared(AfterOption(init, env), x, VariableSymbol(kind))
    case Return(result) => if inFunction then AfterOption(result, env) else env
    case If(c, t, None) => AfterStmt(t, inFunction, AfterExpr(c, env))
    case If(c, t, Some(f)) => AfterStmt(f, inFunction, AfterStmt(t, inFunction, AfterExpr(c, env)))
    case While(c, body) => AfterStmt(body, inFunction, AfterExpr(c, env))
    case Vloop(c, body) => AfterStmt(body, inFunction, AfterExpr(c, env))
    case For(_, _, _) => env
    case Break => env
    case Continue => env
    case Match(subject, arms) => AfterArms(arms, inFunction, AfterExpr(subject, env))
  }

  function AfterStmts(ss: seq<Stmt>, inFunction: bool, env: Env): Env
    decreases ss, 0
  {
    if ss == [] then env else AfterStmts(ss[1..], inFunction, AfterStmt(ss[0], inFunction, env))
  }

  function AfterArms(arms: seq<MatchArm>, inFunction: bool, env: Env): Env
    decreases arms, 0
  {
    if arms == [] then env
    else
      assert (arms decreases to arms[0]) && (arms[0] decreases to arms[0].body);
      AfterArms(arms[1..], inFunction, AfterStmt(arms[0].body, inFunction, AfterOption(arms[0].pattern, env)))
  }

  predicate OkStmt(s: Stmt, inFunction: bool, env: Env)
    decreases s, 1
  {
    match s
    case Block(ss) => OkStmts(ss, inFunction, Inside(env))
    case ExprStmt(e) => OkExpr(e, env)
    case VarDecl(_, x, init) => OkOption(init, env) && x !in AfterOption(init, env).here
    case Return(result) => inFunction && OkOption(result, env)
    case If(c, t, None) => OkExpr(c, env) && OkStmt(t, inFunction, AfterExpr(c, env))
    case If(c, t, Some(f)) =>
      var env1 := AfterExpr(c, env);
      OkExpr(c, env) && OkStmt(t, inFunction, env1) && OkStmt(f, inFunction, AfterStmt(t, inFunction, env1))
    case While(c, body) => OkExpr(c, env) && OkStmt(body, inFunction, AfterExpr(c, env))
    case Vloop(c, body) => OkExpr(c, env) && OkStmt(body, inFunction, AfterExpr(c, env))
    case For(x, iterable, body) =>
      var inner := Extend(Inside(env), x, LOOP_VARIABLE);
      OkExpr(iterable, inner) && OkStmt(body, inFunction, AfterExpr(iterable, inner))
    case Break => true
    case Continue => true
    case Match(subject, arms) => OkExpr(subject, env) && OkArms(arms, inFunction, AfterExpr(subject, env))
  }

  predicate OkStmts(ss: seq<Stmt>, inFunction: bool, env: Env)
    decreases ss, 0
  {
    ss == [] || (OkStmt(ss[0], inFunction, env) && OkStmts(ss[1..], inFunction, AfterStmt(ss[0], inFunction, env)))
  }

  predicate OkArms(arms: seq<MatchArm>, inFunction: bool, env: Env)
    decreases arms, 0
  {
    arms == [] ||
    (var env1 := AfterOption(arms[0].pattern, env);
     assert (arms decreases to arms[0]) && (arms[0] decreases to arms[0].body);
     && OkOption(arms[0].pattern, env)
     && OkStmt(arms[0].body, inFunction, env1)
     && OkArms(arms[1..], inFunction, AfterStmt(arms[0].body, inFunction, env1)))
  }

  // Declarations.

  predicate AllDifferent(xs: seq<string>) {
    forall i, j :: 0 <= i < j < |xs| ==> xs[i] != xs[j]
  }

  function WithParams(params: seq<string>, env: Env): Env
    decreases params
  {
    if params == [] then env else WithParams(params[1..], Declared(env, params[0], PARAMETER))
  }

  predicate OkFunction(f: FunctionDecl, env: Env) {
    && AllDifferent(f.params)
    && (f.body.Some? ==> OkStmt(f.body.value, f.name != "", WithParams(f.params, Inside(env))))
  }

  predicate OkDecl(d: Decl, env: Env) {
    match d
    case Function(f) => OkFunction(f, env)
    case Global(v) => OkStmt(v, false, env)
    case _ => true
  }

  function AfterDecl(d: Decl, env: Env): Env {
    match d
    case Global(v) => AfterStmt(v, false, env)
    case Import(path, alias) => Declared(env, if alias.Some? then alias.value else path, IMPORTED)
    case _ => env
  }

  predicate OkDecls(ds: seq<Decl>, env: Env)
    decreases ds
  {
    ds == [] || (OkDecl(ds[0], env) && OkDecls(ds[1..], AfterDecl(ds[0], env)))
  }

  // The functions and types of a module, which are visible everywhere in it.
  function HoistedNames(ds: seq<Decl>): seq<string>
    decreases ds
  {
    if ds == [] then []
    else
      match ds[0]
      case Function(f) => [f.name] + HoistedNames(ds[1..])
      case TypeDecl(x) => [x] + HoistedNames(ds[1..])
      case _ => HoistedNames(ds[1..])
  }

  function WithHoisted(ds: seq<Decl>, env: Env): Env
    decreases ds
  {
    if ds == [] then env
    else
      match ds[0]
      case Function(f) => WithHoisted(ds[1..],
                                      Declared(env, f.name, Symbol(SymbolKind.Function, false, |f.params|, false)))
      case TypeDecl(x) => WithHoisted(ds[1..], Declared(env, x, TYPE))
      case _ => WithHoisted(ds[1..], env)
  }

  function WithBuiltins(names: seq<string>, env: Env): Env
    decreases names
  {
    if names == [] then env else WithBuiltins(names[1..], Declared(env, names[0], BUILTIN))
  }

  function GlobalEnv(m: Module): Env {
    WithHoisted(m.decls, WithBuiltins(BUILTINS, Env(map[], {})))
  }

  // No function or type is named twice or like a built-in function, and every declaration is
  // in order where it stands.
  predicate WellScoped(m: Module) {
    && AllDifferent(HoistedNames(m.decls))
    && (forall x :: x in HoistedNames(m.decls) ==> x !in BUILTINS)
    && OkDecls(m.decls, GlobalEnv(m))
  }
}
