// The bodies whose registers can be traced: no name is used where the flat slot map holds an
// inner slot, every match reaches a wildcard, declarations belong to blocks, and no array
// literal is empty.
module Traceable {
  import opened Ast
  import opened CodegenFrame
  import opened SlotScopes

  // An empty array literal has no register.
  predicate FullArrays(e: Expr)
    decreases e, 0
  {
    match e
    case Binary(_, l, r) => FullArrays(l) && FullArrays(r)
    case Unary(_, x) => FullArrays(x)
    case AssignExpr(_, target, value) => FullArrays(target) && FullArrays(value)
    case Call(callee, args) => FullArrays(callee) && FullArraysIn(args)
    case Index(base, index) => FullArrays(base) && FullArrays(index)
    case Member(obj, _) => FullArrays(obj)
    case Cast(x, _) => FullArrays(x)
    case ArrayLit(es) => es != [] && FullArraysIn(es)
    case _ => true
  }

  predicate FullArraysIn(es: seq<Expr>)
    decreases es, 0
  {
    es == [] || (FullArrays(es[0]) && FullArraysIn(es[1..]))
  }

  ghost predicate Traced(e: Expr, stale: set<string>) {
    Uses(e) !! stale && FullArrays(e)
  }

  ghost predicate TracedIn(es: seq<Expr>, stale: set<string>) {
    UsesIn(es) !! stale && FullArraysIn(es)
  }

  // `stale` holds the names whose slot belongs to a block that has been left.
  ghost predicate TracedStmt(s: Stmt, stale: set<string>)
    decreases s, 0
  {
    match s
    case Block(ss) => TracedStmts(ss, stale)
    case ExprStmt(e) => Traced(e, stale)
    case VarDecl(_, x, init) => init.Some? ==> Traced(init.value, stale - {x})
    case Return(result) => result.Some? ==> Traced(result.value, stale)
    case If(c, t, None) => Traced(c, stale) && TracedBranch(t, stale)
    case If(c, t, Some(f)) => Traced(c, stale) && TracedBranch(t, stale) && TracedBranch(f, stale + Binds(t))
    case While(c, body) => Traced(c, stale) && TracedBranch(body, stale)
    case Vloop(c, body) => Traced(c, stale) && TracedBranch(body, stale)
    case For(x, iterable, body) => Traced(iterable, stale - {x}) && TracedBranch(body, stale - {x})
    case Break => true
    case Continue => true
    case Match(subject, arms) => Traced(subject, stale) && (arms == [] || TracedArms(arms, stale))
  }

  // A declaration belongs directly to a block.
  ghost predicate TracedBranch(s: Stmt, stale: set<string>)
    decreases s, 1
  {
    !s.VarDecl? && TracedStmt(s, stale)
  }

  ghost predicate TracedStmts(ss: seq<Stmt>, stale: set<string>)
    decreases ss, 0
  {
    ss == [] || (TracedStmt(ss[0], stale) && TracedStmts(ss[1..], StaleAfter(ss[0], stale)))
  }

  ghost predicate TracedArms(arms: seq<MatchArm>, stale: set<string>)
    decreases arms, 0
  {
    arms != [] &&
    (assert (arms decreases to arms[0]) && (arms[0] decreases to arms[0].body);
     TracedBranch(arms[0].body, stale)) &&
    (arms[0].pattern.None? ||
     (Traced(arms[0].pattern.value, stale) && TracedArms(arms[1..], stale + Binds(arms[0].body))))
  }

  ghost function StaleAfter(s: Stmt, stale: set<string>): set<string> {
    if s.VarDecl? then stale - {s.name} else stale + Binds(s)
  }

  ghost predicate TracedFunction(f: FunctionDecl) {
    f.body.Some? ==> TracedStmt(f.body.value, {})
  }
}
