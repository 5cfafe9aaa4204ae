// The semantic analyzer: a visitor that enters and leaves the scopes of a symbol table and
// collects errors. Every method does what the resolution functions say.
module SemanticAnalyzers {
  import opened Common
  import opened Ast
  import opened SymbolTables
  import N = NameResolution

  class SemanticAnalyzer {
    const symbols: SymbolTable
    var errors: seq<N.Complaint>
    var currentFunction: string

    ghost predicate Valid()
      reads this, symbols
    {
      symbols.Valid()
    }

    ghost function Now(): N.State
      reads this, symbols
    {
      N.State(symbols.scopes, errors)
    }

    constructor ()
      ensures Valid() && fresh(symbols) && Now() == N.State([map[]], []) && currentFunction == ""
    {
      symbols := new SymbolTable();
      errors := [];
      currentFunction := "";
    }

    method Error(c: N.Complaint)
      requires Valid()
      modifies this`errors
      ensures Valid() && Now() == N.Report(old(Now()), c)
    {
      errors := errors + [c];
    }

    method DefineOnce(x: string, s: Symbol)
      requires Valid()
      modifies this`errors, symbols
      ensures Valid() && Now() == N.DefineOnce(old(Now()), x, s)
    {
      var inserted := symbols.Define(x, s);
      if !inserted {
        Error(N.Redefinition(x));
      }
    }

    method VisitExpr(e: Expr)
      requires Valid()
      modifies this`errors, symbols
      ensures Valid() && Now() == N.VisitExpr(e, old(Now()))
      decreases e, 1
    {
      match e
      case Ident(x) => VisitIdent(x);
      case Binary(_, a, b) =>
        VisitExpr(a);
        VisitExpr(b);
      case Unary(_, x) => VisitExpr(x);
      case AssignExpr(_, target, value) =>
        if target.Ident? {
          VisitTarget(target.name);
        }
        VisitExpr(target);
        VisitExpr(value);
      case Call(callee, args) =>
        if callee.Ident? {
          VisitCallee(callee.name, |args|);
        } else {
          VisitExpr(callee);
        }
        VisitExprs(args);
      case Member(obj, _) => VisitExpr(obj);
      case ArrayLit(es) => VisitExprs(es);
      case _ =>
    }

    method VisitIdent(x: string)
      requires Valid()
      modifies this`errors
      ensures Valid() && Now() == N.VisitIdent(x, old(Now()))
    {
      var found := symbols.Find(x);
      if found.None? {
        Error(N.Undeclared(x));
      }
    }

    method VisitCallee(x: string, count: nat)
      requires Valid()
      modifies this`errors
      ensures Valid() && Now() == N.VisitCallee(x, count, old(Now()))
    {
      var found := symbols.Find(x);
      if found.None? {
        Error(N.Undeclared(x));
      } else if found.value.kind != SymbolKind.Function {
        Error(N.NotAFunction(x));
      } else if !found.value.builtin && found.value.arity != 0 && found.value.arity != count {
        Error(N.WrongArgumentCount(x, found.value.arity, count));
      }
    }

    method VisitTarget(x: string)
      requires Valid()
      modifies this`errors, symbols
      ensures Valid() && Now() == N.VisitTarget(x, old(Now()))
    {
      var found := symbols.Find(x);
      if found.None? {
        var _ := symbols.Define(x, N.IMPLIED);
      } else if found.value.kind == SymbolKind.Constant {
        Error(N.AssignmentToConstant(x));
      } else if found.value.kind == SymbolKind.Variable && !found.value.isMut {
        Error(N.AssignmentToImmutable(x));
      } else if found.value.kind == SymbolKind.Function {
        Error(N.AssignmentToFunction(x));
      }
    }

    method VisitExprs(es: seq<Expr>)
      requires Valid()
      modifies this`errors, symbols
      ensures Valid() && Now() == N.VisitExprs(es, old(Now()))
      decreases es, 0
    {
      for i := 0 to |es|
        invariant Valid()
        invariant N.VisitExprs(es[i..], Now()) == N.VisitExprs(es, old(Now()))
      {
        assert es[i..][1..] == es[i + 1..];
        VisitExpr(es[i]);
      }
    }

    method VisitOption(e: Option<Expr>)
      requires Valid()
      modifies this`errors, symbols
      ensures Valid() && Now() == N.VisitOption(e, old(Now()))
    {
      if e.Some? {
        VisitExpr(e.value);
      }
    }

    method VisitStmt(s: Stmt)
      requires Valid()
      modifies this`errors, symbols
      ensures Valid() && Now() == N.VisitStmt(s, currentFunction, old(Now()))
      decreases s, 1
    {
      match s
      case Block(ss) =>
        symbols.EnterScope();
        VisitStmts(ss);
        symbols.LeaveScope();
      case ExprStmt(e) => VisitExpr(e);
      case VarDecl(kind, x, init) =>
        VisitOption(init);
        DefineOnce(x, N.VariableSymbol(kind));
      case Return(result) =>
        if currentFunction == "" {
          Error(N.ReturnOutsideFunction);
        } else {
          VisitOption(result);
        }
      case If(c, t, other) =>
        VisitExpr(c);
        VisitStmt(t);
        if other.Some? {
          VisitStmt(other.value);
        }
      case While(c, body) =>
        VisitExpr(c);
        VisitStmt(body);
      case Vloop(c, body) =>
        VisitExpr(c);
        VisitStmt(body);
      case For(x, iterable, body) => VisitFor(x, iterable, body);
      case Break =>
      case Continue =>
      case Match(subject, arms) =>
        VisitExpr(subject);
        VisitArms(arms);
    }

    method VisitFor(x: string, iterable: Expr, body: Stmt)
      requires Valid()
      modifies this`errors, symbols
      ensures Valid()
      ensures var inner := N.DefineIn(N.Enter(old(Now())), x, N.LOOP_VARIABLE);
              Now() == N.Leave(N.VisitStmt(body, currentFunction, N.VisitExpr(iterable, inner)))
      decreases body, 2
    {
      symbols.EnterScope();
      var _ := symbols.Define(x, N.LOOP_VARIABLE);
      VisitExpr(iterable);
      VisitStmt(body);
      symbols.LeaveScope();
    }

    method VisitStmts(ss: seq<Stmt>)
      requires Valid()
      modifies this`errors, symbols
      ensures Valid() && Now() == N.VisitStmts(ss, currentFunction, old(Now()))
      decreases ss, 0
    {
      for i := 0 to |ss|
        invariant Valid()
        invariant N.VisitStmts(ss[i..], currentFunction, Now()) == N.VisitStmts(ss, currentFunction, old(Now()))
      {
        assert ss[i..][1..] == ss[i + 1..];
        VisitStmt(ss[i]);
      }
    }

    method VisitArms(arms: seq<MatchArm>)
      requires Valid()
      modifies this`errors, symbols
      ensures Valid() && Now() == N.VisitArms(arms, currentFunction, old(Now()))
      decreases arms, 0
    {
      for i := 0 to |arms|
        invariant Valid()
        invariant N.VisitArms(arms[i..], currentFunction, Now()) == N.VisitArms(arms, currentFunction, old(Now()))
      {
        assert arms[i..][1..] == arms[i + 1..] && (arms decreases to arms[i]) && (arms[i] decreases to arms[i].body);
        VisitOption(arms[i].pattern);
        VisitStmt(arms[i].body);
      }
    }

    // The name of the enclosing function is put back afterwards.
    method VisitFunction(f: FunctionDecl)
      requires Valid()
      modifies this, symbols
      ensures Valid() && Now() == N.VisitFunction(f, old(Now())) && currentFunction == old(currentFunction)
    {
      var saved := currentFunction;
      currentFunction := f.name;
      symbols.EnterScope();
      VisitParams(f.params);
      if f.body.Some? {
        VisitStmt(f.body.value);
      }
      symbols.LeaveScope();
      currentFunction := saved;
    }

    method VisitParams(params: seq<string>)
      requires Valid()
      modifies this`errors, symbols
      ensures Valid() && Now() == N.VisitParams(params, old(Now()))
    {
      for i := 0 to |params|
        invariant Valid()
        invariant N.VisitParams(params[i..], Now()) == N.VisitParams(params, old(Now()))
      {
        assert params[i..][1..] == params[i + 1..];
        DefineOnce(params[i], N.PARAMETER);
      }
    }

    method VisitDecl(d: Decl)
      requires Valid() && currentFunction == ""
      modifies this, symbols
      ensures Valid() && Now() == N.VisitDecl(d, old(Now())) && currentFunction == ""
    {
      match d
      case Function(f) => VisitFunction(f);
      case Global(v) => VisitStmt(v);
      case Import(path, alias) => var _ := symbols.Define(if alias.Some? then alias.value else path, N.IMPORTED);
      case Alias(_, _) =>
      case TypeDecl(_) =>
    }

    method HoistOne(d: Decl)
      requires Valid()
      modifies this`errors, symbols
      ensures Valid() && forall ds :: N.Hoist([d] + ds, old(Now())) == N.Hoist(ds, Now())
    {
      assert forall ds: seq<Decl> :: ([d] + ds)[1..] == ds;
      match d
      case Function(f) => DefineOnce(f.name, Symbol(SymbolKind.Function, false, |f.params|, false));
      case TypeDecl(x) => DefineOnce(x, N.TYPE);
      case _ =>
    }

    // The built-in functions, then the two passes over the module.
    method Prepare(ds: seq<Decl>)
      requires Valid()
      modifies this`errors, symbols
      ensures Valid() && Now() == N.Hoist(ds, N.DefineBuiltins(N.BUILTINS, old(Now())))
    {
      DeclareBuiltins(N.BUILTINS);
      HoistAll(ds);
    }

    method Analyze(m: Module) returns (ok: bool)
      requires Valid() && Now() == N.State([map[]], []) && currentFunction == ""
      modifies this, symbols
      ensures Valid() && Now() == N.Analyze(m) && ok == (errors == [])
    {
      Prepare(m.decls);
      VisitAll(m.decls);
      ok := errors == [];
    }

    method DeclareBuiltins(names: seq<string>)
      requires Valid()
      modifies symbols
      ensures Valid() && Now() == N.DefineBuiltins(names, old(Now()))
    {
      for i := 0 to |names|
        invariant Valid()
        invariant N.DefineBuiltins(names[i..], Now()) == N.DefineBuiltins(names, old(Now()))
      {
        assert names[i..][1..] == names[i + 1..];
        var _ := symbols.Define(names[i], N.BUILTIN);
      }
    }

    method HoistAll(ds: seq<Decl>)
      requires Valid()
      modifies this`errors, symbols
      ensures Valid() && Now() == N.Hoist(ds, old(Now()))
    {
      for i := 0 to |ds|
        invariant Valid()
        invariant N.Hoist(ds[i..], Now()) == N.Hoist(ds, old(Now()))
      {
        assert ds[i..] == [ds[i]] + ds[i + 1..];
        HoistOne(ds[i]);
      }
    }

    method VisitAll(ds: seq<Decl>)
      requires Valid() && currentFunction == ""
      modifies this, symbols
      ensures Valid() && Now() == N.VisitDecls(ds, old(Now())) && currentFunction == ""
    {
      for i := 0 to |ds|
        invariant Valid() && currentFunction == ""
        invariant N.VisitDecls(ds[i..], Now()) == N.VisitDecls(ds, old(Now()))
      {
        assert ds[i..][1..] == ds[i + 1..];
        VisitDecl(ds[i]);
      }
    }
  }
}
