// `&&` and `||` as the language reference describes them, deciding on the left operand
// where they can, against what the lowering does, which is to evaluate both sides.
module LazyLogic {
  import opened Common
  import opened Ast
  import opened Runtime
  import opened ScopeStack
  import opened Source
  import Int64

  // The left operand settles the result.
  predicate Decides(op: BinaryOp, a: int) {
    (op.And? && a == 0) || (op.Or? && a != 0)
  }

  function EvalLazy(e: Expr, w: World, scopes: Scopes, trace: Trace): ExprResult
    decreases e, 0
  {
    match e
    case Binary(op, l, r) =>
      (match EvalLazy(l, w, scopes, trace)
       case Value(a, s1, t1) =>
         if Decides(op, a) then Value(Int64.Truth(op.Or?), s1, t1)
         else
           (match EvalLazy(r, w, s1, t1)
            case Value(b, s2, t2) => Finish(BinaryValue(op, a, b), s2, t2)
            case stop => stop)
       case stop => stop)
    case Unary(op, x) =>
      if op.Deref? || op.AddrOf? then Wrong
      else
        (match EvalLazy(x, w, scopes, trace)
         case Value(a, s1, t1) => Finish(UnaryValue(op, a), s1, t1)
         case stop => stop)
    case AssignExpr(op, target, value) =>
      if !target.Ident? then Wrong
      else if op.Assign? then AssignResult(target.name, EvalLazy(value, w, scopes, trace))
      else
        (match EvalLazy(target, w, scopes, trace)
         case Value(a, s1, t1) =>
           (match EvalLazy(value, w, s1, t1)
            case Value(b, s2, t2) => AssignResult(target.name, Finish(BinaryValue(CompoundOp(op), a, b), s2, t2))
            case stop => stop)
         case stop => stop)
    case Call(callee, args) =>
      if !callee.Ident? then Wrong
      else
        (match EvalArgsLazy(args, w, scopes, trace)
         case Values(vs, s1, t1) => Invoke(w, callee.name, vs, s1, t1)
         case ArgsTrap(t) => Trap(t)
         case ArgsWrong => Wrong)
    case _ => EvalExpr(e, w, scopes, trace)
  }

  function EvalArgsLazy(args: seq<Expr>, w: World, scopes: Scopes, trace: Trace): ArgsResult
    decreases args, 0
  {
    if args == [] then Values([], scopes, trace)
    else
      match EvalLazy(args[0], w, scopes, trace)
      case Value(v, s1, t1) =>
        (match EvalArgsLazy(args[1..], w, s1, t1)
         case Values(vs, s2, t2) => Values([v] + vs, s2, t2)
         case stop => stop)
      case Trap(t) => ArgsTrap(t)
      case Wrong => ArgsWrong
  }

  // No assignment, no call, and no operator that can trap.
  predicate Quiet(e: Expr, live: set<string>)
    decreases e
  {
    match e
    case IntLit(_) => true
    case CharLit(_) => true
    case BoolLit(_) => true
    case NilLit => true
    case Ident(x) => !IsBareCall(x) && x in live
    case Binary(op, l, r) => !op.Div? && !op.Mod? && !op.Shl? && !op.Shr? && Quiet(l, live) && Quiet(r, live)
    case Unary(op, x) => (op.Neg? || op.Not? || op.BitNot?) && Quiet(x, live)
    case _ => false
  }

  // Every right operand of `&&` and `||` is quiet.
  predicate QuietLogic(e: Expr, live: set<string>)
    decreases e, 0
  {
    match e
    case Binary(op, l, r) => QuietLogic(l, live) && QuietLogic(r, live) && ((op.And? || op.Or?) ==> Quiet(r, live))
    case Unary(_, x) => QuietLogic(x, live)
    case AssignExpr(_, t, v) => QuietLogic(t, live) && QuietLogic(v, live)
    case Call(_, args) => QuietLogicIn(args, live)
    case _ => true
  }

  predicate QuietLogicIn(es: seq<Expr>, live: set<string>)
    decreases es, 0
  {
    es == [] || (QuietLogic(es[0], live) && QuietLogicIn(es[1..], live))
  }

  ghost predicate Visible(scopes: Scopes, live: set<string>) {
    forall x :: x in live ==> Depth(scopes, x) >= 0
  }

  // Assignments change values, never which names a scope holds.
  ghost predicate SameNames(a: Scopes, b: Scopes) {
    |a| == |b| && forall i :: 0 <= i < |a| ==> a[i].Keys == b[i].Keys
  }

  lemma {:induction false} DepthKept(a: Scopes, b: Scopes, x: string, n: nat)
    requires SameNames(a, b) && n <= |a|
    ensures DepthBelow(a, x, n) == DepthBelow(b, x, n)
    decreases n
  {
    if n > 0 {
      DepthKept(a, b, x, n - 1);
    }
  }

  lemma VisibleKept(a: Scopes, b: Scopes, live: set<string>)
    requires SameNames(a, b) && Visible(a, live)
    ensures Visible(b, live)
  {
    forall x | x in live ensures Depth(b, x) >= 0 {
      DepthKept(a, b, x, |a|);
    }
  }

  ghost predicate Keeps(r: ExprResult, scopes: Scopes) {
    r.Value? ==> SameNames(scopes, r.scopes)
  }

  lemma {:induction false} ExprKeeps(e: Expr, w: World, scopes: Scopes, trace: Trace)
    ensures Keeps(EvalExpr(e, w, scopes, trace), scopes)
    decreases e, 0
  {
    match e
    case Binary(_, l, r) =>
      ExprKeeps(l, w, scopes, trace);
      var a := EvalExpr(l, w, scopes, trace);
      if a.Value? {
        ExprKeeps(r, w, a.scopes, a.trace);
      }
    case Unary(_, x) => ExprKeeps(x, w, scopes, trace);
    case AssignExpr(op, target, value) =>
      if op.Assign? {
        ExprKeeps(value, w, scopes, trace);
      } else {
        ExprKeeps(target, w, scopes, trace);
        var a := EvalExpr(target, w, scopes, trace);
        if a.Value? {
          ExprKeeps(value, w, a.scopes, a.trace);
        }
      }
    case Call(_, args) => ArgsKeep(args, w, scopes, trace);
    case _ =>
  }

  lemma {:induction false} ArgsKeep(args: seq<Expr>, w: World, scopes: Scopes, trace: Trace)
    ensures var r := EvalArgs(args, w, scopes, trace);
            r.Values? ==> SameNames(scopes, r.scopes)
    decreases args, 0
  {
    if args != [] {
      ExprKeeps(args[0], w, scopes, trace);
      var a := EvalExpr(args[0], w, scopes, trace);
      if a.Value? {
        ArgsKeep(args[1..], w, a.scopes, a.trace);
      }
    }
  }

  // A quiet expression has a value and leaves no trace.
  lemma {:induction false} QuietEval(e: Expr, live: set<string>, w: World, scopes: Scopes, trace: Trace)
    requires Quiet(e, live) && Visible(scopes, live)
    ensures var r := EvalExpr(e, w, scopes, trace);
            r.Value? && r.scopes == scopes && r.trace == trace
    decreases e
  {
    match e
    case Binary(op, l, r) =>
      QuietEval(l, live, w, scopes, trace);
      QuietEval(r, live, w, scopes, trace);
    case Unary(_, x) => QuietEval(x, live, w, scopes, trace);
    case Ident(x) => assert Depth(scopes, x) >= 0;
    case _ =>
  }

  // Evaluating both sides is the same as short-circuiting wherever right operands are quiet.
  lemma {:induction false} EagerIsLazy(e: Expr, live: set<string>, w: World, scopes: Scopes, trace: Trace)
    requires QuietLogic(e, live) && Visible(scopes, live)
    ensures EvalExpr(e, w, scopes, trace) == EvalLazy(e, w, scopes, trace)
    decreases e, 1
  {
    match e
    case Binary(_, _, _) => BinaryIsLazy(e, live, w, scopes, trace);
    case Unary(_, x) => EagerIsLazy(x, live, w, scopes, trace);
    case AssignExpr(op, target, value) =>
      if op.Assign? {
        EagerIsLazy(value, live, w, scopes, trace);
      } else {
        EagerIsLazy(target, live, w, scopes, trace);
        var a := EvalExpr(target, w, scopes, trace);
        ExprKeeps(target, w, scopes, trace);
        if a.Value? {
          VisibleKept(scopes, a.scopes, live);
          EagerIsLazy(value, live, w, a.scopes, a.trace);
        }
      }
    case Call(_, args) => ArgsAreLazy(args, live, w, scopes, trace);
    case _ =>
  }

  lemma {:induction false} BinaryIsLazy(e: Expr, live: set<string>, w: World, scopes: Scopes, trace: Trace)
    requires e.Binary? && QuietLogic(e, live) && Visible(scopes, live)
    ensures EvalExpr(e, w, scopes, trace) == EvalLazy(e, w, scopes, trace)
    decreases e, 0
  {
    EagerIsLazy(e.lhs, live, w, scopes, trace);
    ExprKeeps(e.lhs, w, scopes, trace);
    var a := EvalExpr(e.lhs, w, scopes, trace);
    if a.Value? {
      VisibleKept(scopes, a.scopes, live);
      EagerIsLazy(e.rhs, live, w, a.scopes, a.trace);
      if Decides(e.op, a.value) {
        QuietEval(e.rhs, live, w, a.scopes, a.trace);
      }
    }
  }

  lemma {:induction false} ArgsAreLazy(args: seq<Expr>, live: set<string>, w: World, scopes: Scopes, trace: Trace)
    requires QuietLogicIn(args, live) && Visible(scopes, live)
    ensures EvalArgs(args, w, scopes, trace) == EvalArgsLazy(args, w, scopes, trace)
    decreases args, 0
  {
    if args != [] {
      EagerIsLazy(args[0], live, w, scopes, trace);
      ExprKeeps(args[0], w, scopes, trace);
      var a := EvalExpr(args[0], w, scopes, trace);
      if a.Value? {
        VisibleKept(scopes, a.scopes, live);
        ArgsAreLazy(args[1..], live, w, a.scopes, a.trace);
      }
    }
  }

  // At one operator whose operands agree, the two part exactly where the left side decides
  // and the right side has an effect or no value.
  lemma OperatorAgreesIff(op: BinaryOp, l: Expr, r: Expr, w: World, scopes: Scopes, trace: Trace)
    requires EvalExpr(l, w, scopes, trace) == EvalLazy(l, w, scopes, trace)
    requires var a := EvalExpr(l, w, scopes, trace);
             a.Value? ==> EvalExpr(r, w, a.scopes, a.trace) == EvalLazy(r, w, a.scopes, a.trace)
    ensures EvalExpr(Binary(op, l, r), w, scopes, trace) == EvalLazy(Binary(op, l, r), w, scopes, trace)
       <==> var a := EvalExpr(l, w, scopes, trace);
            (a.Value? && Decides(op, a.value) ==>
               var b := EvalExpr(r, w, a.scopes, a.trace);
               b.Value? && b.scopes == a.scopes && b.trace == a.trace)
  {
  }

  // false && f(): the lowering calls f, the reference says it is not called.
  lemma CallOnTheRightDiffers(f: string, w: World, scopes: Scopes, v: int)
    requires w([], f, []) == Some(v)
    ensures var e := Binary(And, BoolLit(false), Call(Ident(f), []));
            && EvalLazy(e, w, scopes, []) == Value(0, scopes, [])
            && EvalExpr(e, w, scopes, []) == Value(0, scopes, [Event(f, [], v)])
  {
    var call := Call(Ident(f), []);
    assert EvalExpr(call, w, scopes, []) == Value(v, scopes, [] + [Event(f, [], v)]);
    assert [] + [Event(f, [], v)] == [Event(f, [], v)];
  }
}
