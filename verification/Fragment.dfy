// The programs whose lowering is proved to keep their meaning, as a check over the text.
module Fragment {
  import opened Ast
  import opened CodegenFrame
  import opened SlotScopes
  import opened Traceable
  import Int64

  // `live` holds the names whose entry in IRGen's flat slot map is the slot of their
  // innermost declaration.
  ghost predicate OkExpr(e: Expr, live: set<string>)
    decreases e, 0
  {
    match e
    case IntLit(v) => Int64.InRange(v)
    case CharLit(_) => true
    case BoolLit(_) => true
    case NilLit => true
    case Ident(x) => IsBareCall(x) || x in live
    case Binary(_, l, r) => OkExpr(l, live) && OkExpr(r, live)
    case Unary(op, x) => (op.Neg? || op.Not? || op.BitNot?) && OkExpr(x, live)
    case AssignExpr(_, target, value) => target.Ident? && target.name in live && OkExpr(value, live)
    case Call(callee, args) => callee.Ident? && OkExprs(args, live)
    case _ => false
  }

  ghost predicate OkExprs(es: seq<Expr>, live: set<string>)
    decreases es, 0
  {
    es == [] || (OkExpr(es[0], live) && OkExprs(es[1..], live))
  }

  // A declaration shadows for the rest of its block, and its initialiser must not mention
  // the name. After a block, a name that was declared again inside it is no longer live:
  // the flat map still points at the inner slot.
  ghost predicate OkStmt(s: Stmt, live: set<string>)
    decreases s, 0
  {
    match s
    case Block(ss) => OkStmts(ss, live)
    case ExprStmt(e) => OkExpr(e, live)
    case VarDecl(_, x, init) => init.Some? && OkExpr(init.value, live - {x})
    case Return(result) => result.None? || OkExpr(result.value, live)
    case If(c, t, None) => OkExpr(c, live) && OkBranch(t, live)
    case If(c, t, Some(f)) => OkExpr(c, live) && OkBranch(t, live) && OkBranch(f, live - Binds(t))
    case While(c, body) => OkExpr(c, live) && OkBranch(body, live)
    case Vloop(c, body) => OkExpr(c, live) && OkBranch(body, live)
    case Match(subject, arms) => OkExpr(subject, live) && (arms == [] || OkArms(arms, live))
    case _ => false
  }

  // A declaration belongs directly to a block.
  ghost predicate OkBranch(s: Stmt, live: set<string>)
    decreases s, 1
  {
    !s.VarDecl? && OkStmt(s, live)
  }

  ghost predicate OkStmts(ss: seq<Stmt>, live: set<string>)
    decreases ss, 0
  {
    ss == [] || (OkStmt(ss[0], live) && OkStmts(ss[1..], After(ss[0], live)))
  }

  // The chain reaches a wildcard; arms behind it are never lowered.
  ghost predicate OkArms(arms: seq<MatchArm>, live: set<string>)
    decreases arms, 0
  {
    arms != [] &&
    (assert (arms decreases to arms[0]) && (arms[0] decreases to arms[0].body);
     OkBranch(arms[0].body, live)) &&
    (arms[0].pattern.None? ||
     (OkExpr(arms[0].pattern.value, live) && OkArms(arms[1..], live - Binds(arms[0].body))))
  }

  ghost function After(s: Stmt, live: set<string>): set<string> {
    if s.VarDecl? then live + {s.name} else live - Binds(s)
  }

  ghost predicate OkFunction(f: FunctionDecl) {
    f.body.Some? ==> OkStmt(f.body.value, set x | x in f.params)
  }

  // Every function of the fragment can be traced.

  lemma {:induction false} OkExprTraced(e: Expr, live: set<string>, stale: set<string>)
    requires OkExpr(e, live) && live !! stale
    ensures Traced(e, stale)
    decreases e, 0
  {
    match e
    case Binary(_, l, r) =>
      OkExprTraced(l, live, stale);
      OkExprTraced(r, live, stale);
    case Unary(_, x) => OkExprTraced(x, live, stale);
    case AssignExpr(_, target, value) =>
      OkExprTraced(value, live, stale);
      assert Uses(target) <= {target.name};
    case Call(_, args) => OkExprsTraced(args, live, stale);
    case _ =>
  }

  lemma {:induction false} OkExprsTraced(es: seq<Expr>, live: set<string>, stale: set<string>)
    requires OkExprs(es, live) && live !! stale
    ensures TracedIn(es, stale)
    decreases es, 0
  {
    if es != [] {
      OkExprTraced(es[0], live, stale);
      OkExprsTraced(es[1..], live, stale);
    }
  }

  lemma {:induction false} OkStmtTraced(s: Stmt, live: set<string>, stale: set<string>)
    requires OkStmt(s, live) && live !! stale
    ensures TracedStmt(s, stale)
    decreases s, 0
  {
    match s
    case Block(ss) => OkStmtsTraced(ss, live, stale);
    case ExprStmt(e) => OkExprTraced(e, live, stale);
    case VarDecl(_, x, init) => OkExprTraced(init.value, live - {x}, stale - {x});
    case Return(result) =>
      if result.Some? {
        OkExprTraced(result.value, live, stale);
      }
    case If(c, t, other) =>
      OkExprTraced(c, live, stale);
      OkStmtTraced(t, live, stale);
      if other.Some? {
        OkStmtTraced(other.value, live - Binds(t), stale + Binds(t));
      }
    case While(c, body) =>
      OkExprTraced(c, live, stale);
      OkStmtTraced(body, live, stale);
    case Vloop(c, body) =>
      OkExprTraced(c, live, stale);
      OkStmtTraced(body, live, stale);
    case Match(subject, arms) =>
      OkExprTraced(subject, live, stale);
      if arms != [] {
        OkArmsTraced(arms, live, stale);
      }
  }

  lemma {:induction false} OkStmtsTraced(ss: seq<Stmt>, live: set<string>, stale: set<string>)
    requires OkStmts(ss, live) && live !! stale
    ensures TracedStmts(ss, stale)
    decreases ss, 0
  {
    if ss != [] {
      OkStmtTraced(ss[0], live, stale);
      OkStmtsTraced(ss[1..], After(ss[0], live), StaleAfter(ss[0], stale));
    }
  }

  lemma {:induction false} OkArmsTraced(arms: seq<MatchArm>, live: set<string>, stale: set<string>)
    requires OkArms(arms, live) && live !! stale
    ensures TracedArms(arms, stale)
    decreases arms, 0
  {
    assert (arms decreases to arms[0]) && (arms[0] decreases to arms[0].body);
    OkStmtTraced(arms[0].body, live, stale);
    if arms[0].pattern.Some? {
      OkExprTraced(arms[0].pattern.value, live, stale);
      OkArmsTraced(arms[1..], live - Binds(arms[0].body), stale + Binds(arms[0].body));
    }
  }

  lemma FragmentTraced(f: FunctionDecl)
    requires OkFunction(f)
    ensures TracedFunction(f)
  {
    if f.body.Some? {
      OkStmtTraced(f.body.value, set x | x in f.params, {});
    }
  }
}
