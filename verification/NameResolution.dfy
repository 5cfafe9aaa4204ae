// Name resolution: what the semantic analyzer does at each construct, as functions of its
// scopes and of the errors it has reported.
module NameResolution {
  import opened Common
  import opened Ast
  import opened ScopeStack
  import opened SymbolTables

  datatype Complaint =
    | Undeclared(name: string)
    | NotAFunction(name: string)
    | WrongArgumentCount(name: string, expected: nat, got: nat)
    | Redefinition(name: string)
    | AssignmentToConstant(name: string)
    | AssignmentToImmutable(name: string)
    | AssignmentToFunction(name: string)
    | ReturnOutsideFunction

  datatype State = State(scopes: Scopes, errors: seq<Complaint>)

  function Report(st: State, c: Complaint): State {
    st.(errors := st.errors + [c])
  }

  function Enter(st: State): State {
    st.(scopes := st.scopes + [map[]])
  }

  function Leave(st: State): State
    requires st.scopes != []
  {
    st.(scopes := st.scopes[..|st.scopes| - 1])
  }

  function DefineIn(st: State, x: string, s: Symbol): State
    requires st.scopes != []
  {
    st.(scopes := WithSymbol(st.scopes, x, s))
  }

  // A second definition in the same scope is an error, and the first one stays.
  function DefineOnce(st: State, x: string, s: Symbol): State
    requires st.scopes != []
  {
    if DefinedHere(st.scopes, x) then Report(st, Redefinition(x)) else DefineIn(st, x, s)
  }

  // The state after a visit: nothing is taken back, and the scopes outside the innermost one
  // are as they were.
  ghost predicate Follows(before: State, after: State) {
    && before.scopes != [] && |after.scopes| == |before.scopes|
    && after.scopes[..|after.scopes| - 1] == before.scopes[..|before.scopes| - 1]
    && before.errors <= after.errors
  }

  function VisitIdent(x: string, st: State): State {
    if Lookup(st.scopes, x).Some? then st else Report(st, Undeclared(x))
  }

  // The callee of a call by name; a call of a function without parameters may pass any
  // number of arguments.
  function VisitCallee(x: string, count: nat, st: State): State {
    match Lookup(st.scopes, x)
    case None => Report(st, Undeclared(x))
    case Some(s) =>
      if s.kind != SymbolKind.Function then Report(st, NotAFunction(x))
      else if !s.builtin && s.arity != 0 && s.arity != count then Report(st, WrongArgumentCount(x, s.arity, count))
      else st
  }

  const IMPLIED := Symbol(SymbolKind.Variable, true, 0, false)

  // An assignment to an unknown name declares a mutable variable in the innermost scope.
  function VisitTarget(x: string, st: State): State
    requires st.scopes != []
  {
    match Lookup(st.scopes, x)
    case None => DefineIn(st, x, IMPLIED)
    case Some(s) =>
      if s.kind == SymbolKind.Constant then Report(st, AssignmentToConstant(x))
      else if s.kind == SymbolKind.Variable && !s.isMut then Report(st, AssignmentToImmutable(x))
      else if s.kind == SymbolKind.Function then Report(st, AssignmentToFunction(x))
      else st
  }

  // Index and cast expressions are not looked into.
  function VisitExpr(e: Expr, st: State): (r: State)
    requires st.scopes != []
    ensures Follows(st, r)
    decreases e, 1
  {
    match e
    case Ident(x) => VisitIdent(x, st)
    case Binary(_, a, b) => VisitExpr(b, VisitExpr(a, st))
    case Unary(_, x) => VisitExpr(x, st)
    case AssignExpr(_, target, value) =>
      VisitExpr(value, VisitExpr(target, if target.Ident? then VisitTarget(target.name, st) else st))
    case Call(callee, args) =>
      VisitExprs(args, if callee.Ident? then VisitCallee(callee.name, |args|, st) else VisitExpr(callee, st))
    case Member(obj, _) => VisitExpr(obj, st)
    case ArrayLit(es) => VisitExprs(es, st)
    case _ => st
  }

  function VisitExprs(es: seq<Expr>, st: State): (r: State)
    requires st.scopes != []
    ensures Follows(st, r)
    decreases es, 0
  {
    if es == [] then st else VisitExprs(es[1..], VisitExpr(es[0], st))
  }

  function VisitOption(e: Option<Expr>, st: State): (r: State)
    requires st.scopes != []
    ensures Follows(st, r)
  {
    match e
    case None => st
    case Some(x) => VisitExpr(x, st)
  }

  function VariableSymbol(kind: VarKind): Symbol {
    Symbol(if kind.Const? then SymbolKind.Constant else SymbolKind.Variable, kind.Var?, 0, false)
  }

  const LOOP_VARIABLE := Symbol(SymbolKind.Variable, false, 0, false)

  // The initial value is visited before the name is in scope.
  function VisitVarDecl(kind: VarKind, x: string, init: Option<Expr>, st: State): (r: State)
    requires st.scopes != []
    ensures Follows(st, r)
  {
    DefineOnce(VisitOption(init, st), x, VariableSymbol(kind))
  }

  // `fn` is the name of the function being visited, or empty.
  function VisitStmt(s: Stmt, fn: string, st: State): (r: State)
    requires st.scopes != []
    ensures Follows(st, r)
    decreases s, 1
  {
    match s
    case Block(ss) => Leave(VisitStmts(ss, fn, Enter(st)))
    case ExprStmt(e) => VisitExpr(e, st)
    case VarDecl(kind, x, init) => VisitVarDecl(kind, x, init, st)
    case Return(result) => if fn == "" then Report(st, ReturnOutsideFunction) else VisitOption(result, st)
    case If(c, t, None) => VisitStmt(t, fn, VisitExpr(c, st))
    case If(c, t, Some(f)) => VisitStmt(f, fn, VisitStmt(t, fn, VisitExpr(c, st)))
    case While(c, body) => VisitStmt(body, fn, VisitExpr(c, st))
    case Vloop(c, body) => VisitStmt(body, fn, VisitExpr(c, st))
    case For(x, iterable, body) =>
      Leave(VisitStmt(body, fn, VisitExpr(iterable, DefineIn(Enter(st), x, LOOP_VARIABLE))))
    case Break => st
    case Continue => st
    case Match(subject, arms) => VisitArms(arms, fn, VisitExpr(subject, st))
  }

  function VisitStmts(ss: seq<Stmt>, fn: string, st: State): (r: State)
    requires st.scopes != []
    ensures Follows(st, r)
    decreases ss, 0
  {
    if ss == [] then st else VisitStmts(ss[1..], fn, VisitStmt(ss[0], fn, st))
  }

  function VisitArms(arms: seq<MatchArm>, fn: string, st: State): (r: State)
    requires st.scopes != []
    ensures Follows(st, r)
    decreases arms, 0
  {
    if arms == [] then st
    else
      assert (arms decreases to arms[0]) && (arms[0] decreases to arms[0].body);
      VisitArms(arms[1..], fn, VisitStmt(arms[0].body, fn, VisitOption(arms[0].pattern, st)))
  }

  // Declarations.

  const PARAMETER := Symbol(SymbolKind.Parameter, false, 0, false)

  function VisitParams(params: seq<string>, st: State): (r: State)
    requires st.scopes != []
    ensures Follows(st, r)
    decreases params
  {
    if params == [] then st else VisitParams(params[1..], DefineOnce(st, params[0], PARAMETER))
  }

  function VisitFunction(f: FunctionDecl, st: State): (r: State)
    requires st.scopes != []
    ensures Follows(st, r)
  {
    var inner := VisitParams(f.params, Enter(st));
    Leave(match f.body case None => inner case Some(s) => VisitStmt(s, f.name, inner))
  }

  const IMPORTED := Symbol(SymbolKind.Module, false, 0, false)

  // Importing a name twice is a warning only.
  function VisitDecl(d: Decl, st: State): (r: State)
    requires st.scopes != []
    ensures Follows(st, r)
  {
    match d
    case Function(f) => VisitFunction(f, st)
    case Global(v) => VisitStmt(v, "", st)
    case Import(path, alias) => DefineIn(st, if alias.Some? then alias.value else path, IMPORTED)
    case Alias(_, _) => st
    case TypeDecl(_) => st
  }

  function VisitDecls(ds: seq<Decl>, st: State): (r: State)
    requires st.scopes != []
    ensures Follows(st, r)
    decreases ds
  {
    if ds == [] then st else VisitDecls(ds[1..], VisitDecl(ds[0], st))
  }

  // The first pass enters the functions and types of the module.

  const TYPE := Symbol(SymbolKind.Type, false, 0, false)

  function Hoist(ds: seq<Decl>, st: State): (r: State)
    requires st.scopes != []
    ensures Follows(st, r)
    decreases ds
  {
    if ds == [] then st
    else
      match ds[0]
      case Function(f) => Hoist(ds[1..], DefineOnce(st, f.name, Symbol(SymbolKind.Function, false, |f.params|, false)))
      case TypeDecl(x) => Hoist(ds[1..], DefineOnce(st, x, TYPE))
      case _ => Hoist(ds[1..], st)
  }

  const BUILTIN := Symbol(SymbolKind.Function, false, 0, true)
  const BUILTINS := ["print", "println", "eprint", "eprintln", "len", "sizeof", "exit", "escape", "wait"]

  function DefineBuiltins(names: seq<string>, st: State): (r: State)
    requires st.scopes != []
    ensures Follows(st, r)
    decreases names
  {
    if names == [] then st else DefineBuiltins(names[1..], DefineIn(st, names[0], BUILTIN))
  }

  function Analyze(m: Module): State {
    VisitDecls(m.decls, Hoist(m.decls, DefineBuiltins(BUILTINS, State([map[]], []))))
  }
}
