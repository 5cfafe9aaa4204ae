// The meaning of function bodies. Variables live in a stack of scopes searched from the
// innermost outward. Operands are evaluated from left to right; `&&` and `||` evaluate
// both sides.
module Source {
  import opened Common
  import opened Ast
  import opened Runtime
  import opened ScopeStack
  import Int64

  type Scopes = seq<map<string, int>>

  function Update(scopes: Scopes, x: string, v: int): Scopes
    requires Depth(scopes, x) >= 0
  {
    var d := Depth(scopes, x);
    scopes[d := scopes[d][x := v]]
  }

  // `Wrong` marks programs the model gives no meaning to.
  datatype ExprResult =
    | Value(value: int, scopes: Scopes, trace: Trace)
    | Trap(trace: Trace)
    | Wrong

  datatype ArgsResult =
    | Values(values: seq<int>, scopes: Scopes, trace: Trace)
    | ArgsTrap(trace: Trace)
    | ArgsWrong

  function BinaryValue(op: BinaryOp, a: int, b: int): Option<int> {
    match op
    case Add => Some(Int64.Wrap(a + b))
    case Sub => Some(Int64.Wrap(a - b))
    case Mul => Some(Int64.Wrap(a * b))
    case Div => Int64.Div(a, b)
    case Mod => Int64.Rem(a, b)
    case Eq => Some(Int64.Truth(a == b))
    case NotEq => Some(Int64.Truth(a != b))
    case Lt => Some(Int64.Truth(a < b))
    case Gt => Some(Int64.Truth(a > b))
    case LtEq => Some(Int64.Truth(a <= b))
    case GtEq => Some(Int64.Truth(a >= b))
    case And => Some(Int64.Truth(a != 0 && b != 0))
    case Or => Some(Int64.Truth(a != 0 || b != 0))
    case BitAnd => Some(Int64.Bitwise(Int64.And, a, b))
    case BitOr => Some(Int64.Bitwise(Int64.Or, a, b))
    case BitXor => Some(Int64.Bitwise(Int64.Xor, a, b))
    case Shl => Int64.Shl(a, b)
    case Shr => Int64.Shr(a, b)
  }

  function UnaryValue(op: UnaryOp, a: int): Option<int> {
    match op
    case Neg => Some(Int64.Wrap(-a))
    case Not => Some(Int64.Truth(a == 0))
    case BitNot => Some(-a - 1)
    case Deref => None
    case AddrOf => None
  }

  // The operator of `x op= e`.
  function CompoundOp(op: AssignOp): BinaryOp
    requires !op.Assign?
  {
    match op
    case AddAssign => Add
    case SubAssign => Sub
    case MulAssign => Mul
    case DivAssign => Div
    case ModAssign => Mod
    case BitAndAssign => BitAnd
    case BitOrAssign => BitOr
    case BitXorAssign => BitXor
  }

  function Invoke(w: World, f: string, args: seq<int>, scopes: Scopes, trace: Trace): ExprResult {
    match w(trace, f, args)
    case None => Trap(trace)
    case Some(v) => Value(v, scopes, trace + [Event(f, args, v)])
  }

  function EvalIdent(x: string, w: World, scopes: Scopes, trace: Trace): ExprResult {
    if IsBareCall(x) then Invoke(w, x, [], scopes, trace)
    else
      match Lookup(scopes, x)
      case None => Wrong
      case Some(v) => Value(v, scopes, trace)
  }

  function Finish(v: Option<int>, scopes: Scopes, trace: Trace): ExprResult {
    match v
    case None => Trap(trace)
    case Some(n) => Value(n, scopes, trace)
  }

  function AssignResult(x: string, r: ExprResult): ExprResult {
    if r.Value? then
      if Depth(r.scopes, x) >= 0 then r.(scopes := Update(r.scopes, x, r.value)) else Wrong
    else r
  }

  function EvalExpr(e: Expr, w: World, scopes: Scopes, trace: Trace): ExprResult
    decreases e, 0
  {
    match e
    case IntLit(v) => Value(v, scopes, trace)
    case CharLit(c) => Value(c, scopes, trace)
    case BoolLit(b) => Value(Int64.Truth(b), scopes, trace)
    case NilLit => Value(0, scopes, trace)
    case Ident(x) => EvalIdent(x, w, scopes, trace)
    case Binary(op, l, r) =>
      (match EvalExpr(l, w, scopes, trace)
       case Value(a, s1, t1) =>
         (match EvalExpr(r, w, s1, t1)
          case Value(b, s2, t2) => Finish(BinaryValue(op, a, b), s2, t2)
          case stop => stop)
       case stop => stop)
    case Unary(op, x) =>
      if op.Deref? || op.AddrOf? then Wrong
      else
        (match EvalExpr(x, w, scopes, trace)
         case Value(a, s1, t1) => Finish(UnaryValue(op, a), s1, t1)
         case stop => stop)
    case AssignExpr(op, target, value) =>
      if !target.Ident? then Wrong
      else if op.Assign? then AssignResult(target.name, EvalExpr(value, w, scopes, trace))
      else
        (match EvalExpr(target, w, scopes, trace)
         case Value(a, s1, t1) =>
           (match EvalExpr(value, w, s1, t1)
            case Value(b, s2, t2) => AssignResult(target.name, Finish(BinaryValue(CompoundOp(op), a, b), s2, t2))
            case stop => stop)
         case stop => stop)
    case Call(callee, args) =>
      if !callee.Ident? then Wrong
      else
        (match EvalArgs(args, w, scopes, trace)
         case Values(vs, s1, t1) => Invoke(w, callee.name, vs, s1, t1)
         case ArgsTrap(t) => Trap(t)
         case ArgsWrong => Wrong)
    case _ => Wrong
  }

  function EvalArgs(args: seq<Expr>, w: World, scopes: Scopes, trace: Trace): ArgsResult
    decreases args, 0
  {
    if args == [] then Values([], scopes, trace)
    else
      match EvalExpr(args[0], w, scopes, trace)
      case Value(v, s1, t1) =>
        (match EvalArgs(args[1..], w, s1, t1)
         case Values(vs, s2, t2) => Values([v] + vs, s2, t2)
         case stop => stop)
      case Trap(t) => ArgsTrap(t)
      case Wrong => ArgsWrong
  }

  datatype StmtResult =
    | Normal(scopes: Scopes, trace: Trace)
    | Returned(result: Option<int>, trace: Trace)
    | Trapped(trace: Trace)
    | OutOfFuel
    | Bad

  function Discard(r: ExprResult): StmtResult {
    match r
    case Value(_, s, t) => Normal(s, t)
    case Trap(t) => Trapped(t)
    case Wrong => Bad
  }

  function LeaveScope(r: StmtResult): StmtResult {
    if r.Normal? && r.scopes != [] then r.(scopes := r.scopes[..|r.scopes| - 1]) else r
  }

  // How often vloop(n) runs its body.
  function Times(n: int): nat {
    if n < 0 then 0 else n
  }

  // Each turn of a condition loop costs one unit of fuel; nothing else does.
  function EvalStmt(s: Stmt, w: World, scopes: Scopes, trace: Trace, fuel: nat): StmtResult
    decreases fuel, s, 0
  {
    match s
    case Block(ss) => LeaveScope(EvalStmts(ss, w, scopes + [map[]], trace, fuel))
    case ExprStmt(e) => Discard(EvalExpr(e, w, scopes, trace))
    case VarDecl(_, x, Some(e)) =>
      (match EvalExpr(e, w, scopes, trace)
       case Value(v, s1, t1) => if s1 == [] then Bad else Normal(Declare(s1, x, v), t1)
       case Trap(t) => Trapped(t)
       case Wrong => Bad)
    case VarDecl(_, _, None) => Bad
    case Return(None) => Returned(None, trace)
    case Return(Some(e)) =>
      (match EvalExpr(e, w, scopes, trace)
       case Value(v, _, t1) => Returned(Some(v), t1)
       case Trap(t) => Trapped(t)
       case Wrong => Bad)
    case If(c, t, other) =>
      (match EvalExpr(c, w, scopes, trace)
       case Value(v, s1, t1) =>
         if v != 0 then EvalStmt(t, w, s1, t1, fuel)
         else
           (match other
            case None => Normal(s1, t1)
            case Some(f) => EvalStmt(f, w, s1, t1, fuel))
       case Trap(t) => Trapped(t)
       case Wrong => Bad)
    case While(c, body) => EvalLoop(c, body, w, scopes, trace, fuel)
    case Vloop(c, body) =>
      if c.IntLit? then Repeat(body, Times(c.value), w, scopes, trace, fuel)
      else EvalLoop(c, body, w, scopes, trace, fuel)
    case Match(subject, arms) =>
      (match EvalExpr(subject, w, scopes, trace)
       case Value(v, s1, t1) => EvalArms(arms, v, w, s1, t1, fuel)
       case Trap(t) => Trapped(t)
       case Wrong => Bad)
    case For(_, _, _) => Bad
    case Break => Bad
    case Continue => Bad
  }

  function EvalStmts(ss: seq<Stmt>, w: World, scopes: Scopes, trace: Trace, fuel: nat): StmtResult
    decreases fuel, ss, 0
  {
    if ss == [] then Normal(scopes, trace)
    else
      match EvalStmt(ss[0], w, scopes, trace, fuel)
      case Normal(s1, t1) => EvalStmts(ss[1..], w, s1, t1, fuel)
      case stop => stop
  }

  function EvalLoop(c: Expr, body: Stmt, w: World, scopes: Scopes, trace: Trace, fuel: nat): StmtResult
    decreases fuel, body, 1
  {
    if fuel == 0 then OutOfFuel
    else
      match EvalExpr(c, w, scopes, trace)
      case Value(v, s1, t1) =>
        if v == 0 then Normal(s1, t1)
        else
          (match EvalStmt(body, w, s1, t1, fuel)
           case Normal(s2, t2) => EvalLoop(c, body, w, s2, t2, fuel - 1)
           case stop => stop)
      case Trap(t) => Trapped(t)
      case Wrong => Bad
  }

  // The body, `times` times in a row.
  function Repeat(body: Stmt, times: nat, w: World, scopes: Scopes, trace: Trace, fuel: nat): StmtResult
    decreases fuel, body, 1 + times
  {
    if times == 0 then Normal(scopes, trace)
    else
      match EvalStmt(body, w, scopes, trace, fuel)
      case Normal(s1, t1) => Repeat(body, times - 1, w, s1, t1, fuel)
      case stop => stop
  }

  function EvalArms(arms: seq<MatchArm>, v: int, w: World, scopes: Scopes, trace: Trace, fuel: nat): StmtResult
    decreases fuel, arms, 0
  {
    if arms == [] then Normal(scopes, trace)
    else
      var MatchArm(pattern, body) := arms[0];
      assert (arms decreases to arms[0]) && (arms[0] decreases to body);
      match pattern
      case None => EvalStmt(body, w, scopes, trace, fuel)
      case Some(p) =>
        match EvalExpr(p, w, scopes, trace)
        case Value(u, s1, t1) =>
          if u == v then EvalStmt(body, w, s1, t1, fuel)
          else EvalArms(arms[1..], v, w, s1, t1, fuel)
        case Trap(t) => Trapped(t)
        case Wrong => Bad
  }

  function ParamScope(params: seq<string>, args: seq<int>): map<string, int>
    requires |params| == |args|
  {
    if params == [] then map[]
    else ParamScope(params[..|params| - 1], args[..|args| - 1])[params[|params| - 1] := args[|args| - 1]]
  }

  // Falling off the end returns nothing.
  function EvalFunction(f: FunctionDecl, args: seq<int>, w: World, fuel: nat): StmtResult
    requires |f.params| == |args|
  {
    match f.body
    case None => Returned(None, [])
    case Some(s) =>
      match EvalStmt(s, w, [ParamScope(f.params, args)], [], fuel)
      case Normal(_, t) => Returned(None, t)
      case stop => stop
  }
}
