// Whole functions whose `&&` and `||` short-circuit, as the language reference has them, and
// the code that is generated for them.
module LazyPrograms {
  import opened Common
  import opened Ast
  import opened Runtime
  import opened ScopeStack
  import opened Source
  import opened LazyLogic
  import opened Fragment
  import opened Preservation
  import IrMachine

  // The meaning of statements with short-circuiting conditions and operands.
  function LazyStmt(s: Stmt, w: World, scopes: Scopes, trace: Trace, fuel: nat): StmtResult
    decreases fuel, s, 0
  {
    match s
    case Block(ss) => LeaveScope(LazyStmts(ss, w, scopes + [map[]], trace, fuel))
    case ExprStmt(e) => Discard(EvalLazy(e, w, scopes, trace))
    case VarDecl(_, x, Some(e)) =>
      (match EvalLazy(e, w, scopes, trace)
       case Value(v, s1, t1) => if s1 == [] then Bad else Normal(Declare(s1, x, v), t1)
       case Trap(t) => Trapped(t)
       case Wrong => Bad)
    case VarDecl(_, _, None) => Bad
    case Return(None) => Returned(None, trace)
    case Return(Some(e)) =>
      (match EvalLazy(e, w, scopes, trace)
       case Value(v, _, t1) => Returned(Some(v), t1)
       case Trap(t) => Trapped(t)
       case Wrong => Bad)
    case If(c, t, other) =>
      (match EvalLazy(c, w, scopes, trace)
       case Value(v, s1, t1) =>
         if v != 0 then LazyStmt(t, w, s1, t1, fuel)
         else
           (match other
            case None => Normal(s1, t1)
            case Some(f) => LazyStmt(f, w, s1, t1, fuel))
       case Trap(t) => Trapped(t)
       case Wrong => Bad)
    case While(c, body) => LazyLoop(c, body, w, scopes, trace, fuel)
    case Vloop(c, body) =>
      if c.IntLit? then LazyRepeat(body, Times(c.value), w, scopes, trace, fuel)
      else LazyLoop(c, body, w, scopes, trace, fuel)
    case Match(subject, arms) =>
      (match EvalLazy(subject, w, scopes, trace)
       case Value(v, s1, t1) => LazyArms(arms, v, w, s1, t1, fuel)
       case Trap(t) => Trapped(t)
       case Wrong => Bad)
    case For(_, _, _) => Bad
    case Break => Bad
    case Continue => Bad
  }

  function LazyStmts(ss: seq<Stmt>, w: World, scopes: Scopes, trace: Trace, fuel: nat): StmtResult
    decreases fuel, ss, 0
  {
    if ss == [] then Normal(scopes, trace)
    else
      match LazyStmt(ss[0], w, scopes, trace, fuel)
      case Normal(s1, t1) => LazyStmts(ss[1..], w, s1, t1, fuel)
      case stop => stop
  }

  function LazyLoop(c: Expr, body: Stmt, w: World, scopes: Scopes, trace: Trace, fuel: nat): StmtResult
    decreases fuel, body, 1
  {
    if fuel == 0 then OutOfFuel
    else
      match EvalLazy(c, w, scopes, trace)
      case Value(v, s1, t1) =>
        if v == 0 then Normal(s1, t1)
        else
          (match LazyStmt(body, w, s1, t1, fuel)
           case Normal(s2, t2) => LazyLoop(c, body, w, s2, t2, fuel - 1)
           case stop => stop)
      case Trap(t) => Trapped(t)
      case Wrong => Bad
  }

  function LazyRepeat(body: Stmt, times: nat, w: World, scopes: Scopes, trace: Trace, fuel: nat): StmtResult
    decreases fuel, body, 1 + times
  {
    if times == 0 then Normal(scopes, trace)
    else
      match LazyStmt(body, w, scopes, trace, fuel)
      case Normal(s1, t1) => LazyRepeat(body, times - 1, w, s1, t1, fuel)
      case stop => stop
  }

  function LazyArms(arms: seq<MatchArm>, v: int, w: World, scopes: Scopes, trace: Trace, fuel: nat): StmtResult
    decreases fuel, arms, 0
  {
    if arms == [] then Normal(scopes, trace)
    else
      var MatchArm(pattern, body) := arms[0];
      assert (arms decreases to arms[0]) && (arms[0] decreases to body);
      match pattern
      case None => LazyStmt(body, w, scopes, trace, fuel)
      case Some(p) =>
        match EvalLazy(p, w, scopes, trace)
        case Value(u, s1, t1) =>
          if u == v then LazyStmt(body, w, s1, t1, fuel)
          else LazyArms(arms[1..], v, w, s1, t1, fuel)
        case Trap(t) => Trapped(t)
        case Wrong => Bad
  }

  function LazyFunction(f: FunctionDecl, args: seq<int>, w: World, fuel: nat): StmtResult
    requires |f.params| == |args|
  {
    match f.body
    case None => Returned(None, [])
    case Some(s) =>
      match LazyStmt(s, w, [ParamScope(f.params, args)], [], fuel)
      case Normal(_, t) => Returned(None, t)
      case stop => stop
  }

  // Every right operand of `&&` and `||` in the statement is quiet; `live` holds names that
  // are visible.

  predicate QuietStmt(s: Stmt, live: set<string>)
    decreases s, 0
  {
    match s
    case Block(ss) => QuietStmts(ss, live)
    case ExprStmt(e) => QuietLogic(e, live)
    case VarDecl(_, _, init) => init.Some? ==> QuietLogic(init.value, live)
    case Return(result) => result.Some? ==> QuietLogic(result.value, live)
    case If(c, t, None) => QuietLogic(c, live) && QuietStmt(t, live)
    case If(c, t, Some(f)) => QuietLogic(c, live) && QuietStmt(t, live) && QuietStmt(f, live)
    case While(c, body) => QuietLogic(c, live) && QuietStmt(body, live)
    case Vloop(c, body) => QuietLogic(c, live) && QuietStmt(body, live)
    case Match(subject, arms) => QuietLogic(subject, live) && QuietArms(arms, live)
    case _ => true
  }

  predicate QuietStmts(ss: seq<Stmt>, live: set<string>)
    decreases ss, 0
  {
    ss == [] || (QuietStmt(ss[0], live) && QuietStmts(ss[1..], if ss[0].VarDecl? then live + {ss[0].name} else live))
  }

  predicate QuietArms(arms: seq<MatchArm>, live: set<string>)
    decreases arms, 0
  {
    arms == [] ||
    ((assert (arms decreases to arms[0]) && (arms[0] decreases to arms[0].body);
      QuietStmt(arms[0].body, live)) &&
     (arms[0].pattern.Some? ==> QuietLogic(arms[0].pattern.value, live)) && QuietArms(arms[1..], live))
  }

  predicate QuietFunction(f: FunctionDecl) {
    f.body.Some? ==> QuietStmt(f.body.value, set x | x in f.params)
  }

  // Statements keep the names that are visible; they may add some to the innermost scope.

  ghost predicate Covers(a: Scopes, b: Scopes) {
    |a| == |b| && forall i :: 0 <= i < |a| ==> a[i].Keys <= b[i].Keys
  }

  lemma CoversVisible(a: Scopes, b: Scopes, live: set<string>)
    requires Covers(a, b) && Visible(a, live)
    ensures Visible(b, live)
  {
    forall x | x in live ensures Depth(b, x) >= 0 {
      assert Depth(a, x) >= 0;
      assert x in b[Depth(a, x)];
    }
  }

  ghost predicate Keeping(r: StmtResult, scopes: Scopes) {
    r.Normal? ==> Covers(scopes, r.scopes)
  }

  lemma {:induction false} StmtKeeps(s: Stmt, w: World, scopes: Scopes, trace: Trace, fuel: nat)
    ensures Keeping(EvalStmt(s, w, scopes, trace, fuel), scopes)
    decreases fuel, s, 0
  {
    match s
    case Block(ss) => StmtsKeep(ss, w, scopes + [map[]], trace, fuel);
    case ExprStmt(e) => ExprKeeps(e, w, scopes, trace);
    case VarDecl(_, _, Some(e)) => ExprKeeps(e, w, scopes, trace);
    case If(c, t, other) =>
      ExprKeeps(c, w, scopes, trace);
      var r := EvalExpr(c, w, scopes, trace);
      if r.Value? && r.value != 0 {
        StmtKeeps(t, w, r.scopes, r.trace, fuel);
      } else if r.Value? && other.Some? {
        StmtKeeps(other.value, w, r.scopes, r.trace, fuel);
      }
    case While(c, body) => LoopKeeps(c, body, w, scopes, trace, fuel);
    case Vloop(c, body) =>
      if c.IntLit? {
        RepeatKeeps(body, Times(c.value), w, scopes, trace, fuel);
      } else {
        LoopKeeps(c, body, w, scopes, trace, fuel);
      }
    case Match(subject, arms) =>
      ExprKeeps(subject, w, scopes, trace);
      var r := EvalExpr(subject, w, scopes, trace);
      if r.Value? {
        ArmsKeep(arms, r.value, w, r.scopes, r.trace, fuel);
      }
    case _ =>
  }

  lemma {:induction false} StmtsKeep(ss: seq<Stmt>, w: World, scopes: Scopes, trace: Trace, fuel: nat)
    ensures Keeping(EvalStmts(ss, w, scopes, trace, fuel), scopes)
    decreases fuel, ss, 0
  {
    if ss != [] {
      StmtKeeps(ss[0], w, scopes, trace, fuel);
      var r := EvalStmt(ss[0], w, scopes, trace, fuel);
      if r.Normal? {
        StmtsKeep(ss[1..], w, r.scopes, r.trace, fuel);
      }
    }
  }

  lemma {:induction false} LoopKeeps(c: Expr, body: Stmt, w: World, scopes: Scopes, trace: Trace, fuel: nat)
    ensures Keeping(EvalLoop(c, body, w, scopes, trace, fuel), scopes)
    decreases fuel, body, 1
  {
    if fuel > 0 {
      ExprKeeps(c, w, scopes, trace);
      var r := EvalExpr(c, w, scopes, trace);
      if r.Value? && r.value != 0 {
        StmtKeeps(body, w, r.scopes, r.trace, fuel);
        var q := EvalStmt(body, w, r.scopes, r.trace, fuel);
        if q.Normal? {
          LoopKeeps(c, body, w, q.scopes, q.trace, fuel - 1);
        }
      }
    }
  }

  lemma {:induction false} RepeatKeeps(body: Stmt, times: nat, w: World, scopes: Scopes, trace: Trace, fuel: nat)
    ensures Keeping(Repeat(body, times, w, scopes, trace, fuel), scopes)
    decreases fuel, body, 1 + times
  {
    if times > 0 {
      StmtKeeps(body, w, scopes, trace, fuel);
      var r := EvalStmt(body, w, scopes, trace, fuel);
      if r.Normal? {
        RepeatKeeps(body, times - 1, w, r.scopes, r.trace, fuel);
      }
    }
  }

  lemma {:induction false} ArmsKeep(arms: seq<MatchArm>, v: int, w: World, scopes: Scopes, trace: Trace, fuel: nat)
    ensures Keeping(EvalArms(arms, v, w, scopes, trace, fuel), scopes)
    decreases fuel, arms, 0
  {
    if arms != [] {
      assert (arms decreases to arms[0]) && (arms[0] decreases to arms[0].body);
      if arms[0].pattern.None? {
        StmtKeeps(arms[0].body, w, scopes, trace, fuel);
      } else {
        ExprKeeps(arms[0].pattern.value, w, scopes, trace);
        var r := EvalExpr(arms[0].pattern.value, w, scopes, trace);
        if r.Value? && r.value == v {
          StmtKeeps(arms[0].body, w, r.scopes, r.trace, fuel);
        } else if r.Value? {
          ArmsKeep(arms[1..], v, w, r.scopes, r.trace, fuel);
        }
      }
    }
  }

  // An expression on the way, after which the same names are visible.
  lemma ThenVisible(e: Expr, live: set<string>, w: World, scopes: Scopes, trace: Trace)
    requires QuietLogic(e, live) && Visible(scopes, live)
    ensures EvalExpr(e, w, scopes, trace) == EvalLazy(e, w, scopes, trace)
    ensures var r := EvalExpr(e, w, scopes, trace);
            r.Value? ==> Visible(r.scopes, live)
  {
    EagerIsLazy(e, live, w, scopes, trace);
    ExprKeeps(e, w, scopes, trace);
    var r := EvalExpr(e, w, scopes, trace);
    if r.Value? {
      VisibleKept(scopes, r.scopes, live);
    }
  }

  lemma {:induction false} StmtIsLazy(s: Stmt, live: set<string>, w: World, scopes: Scopes, trace: Trace, fuel: nat)
    requires QuietStmt(s, live) && Visible(scopes, live)
    ensures EvalStmt(s, w, scopes, trace, fuel) == LazyStmt(s, w, scopes, trace, fuel)
    decreases fuel, s, 1
  {
    match s
    case Block(ss) => BlockIsLazy(ss, live, w, scopes, trace, fuel);
    case ExprStmt(e) => ThenVisible(e, live, w, scopes, trace);
    case VarDecl(_, _, Some(e)) => ThenVisible(e, live, w, scopes, trace);
    case Return(Some(e)) => ThenVisible(e, live, w, scopes, trace);
    case If(c, t, other) =>
      ThenVisible(c, live, w, scopes, trace);
      var r := EvalExpr(c, w, scopes, trace);
      if r.Value? && r.value != 0 {
        StmtIsLazy(t, live, w, r.scopes, r.trace, fuel);
      } else if r.Value? && other.Some? {
        StmtIsLazy(other.value, live, w, r.scopes, r.trace, fuel);
      }
    case While(c, body) => LoopIsLazy(c, body, live, w, scopes, trace, fuel);
    case Vloop(c, body) =>
      if c.IntLit? {
        RepeatIsLazy(body, Times(c.value), live, w, scopes, trace, fuel);
      } else {
        LoopIsLazy(c, body, live, w, scopes, trace, fuel);
      }
    case Match(subject, arms) =>
      ThenVisible(subject, live, w, scopes, trace);
      var r := EvalExpr(subject, w, scopes, trace);
      if r.Value? {
        ArmsAreLazy(arms, r.value, live, w, r.scopes, r.trace, fuel);
      }
    case _ =>
  }

  lemma {:induction false} BlockIsLazy(ss: seq<Stmt>, live: set<string>, w: World, scopes: Scopes, trace: Trace,
                                       fuel: nat)
    requires QuietStmts(ss, live) && Visible(scopes, live)
    ensures EvalStmts(ss, w, scopes + [map[]], trace, fuel) == LazyStmts(ss, w, scopes + [map[]], trace, fuel)
    decreases fuel, ss, 1
  {
    var inner := scopes + [map[]];
    forall x | x in live ensures Depth(inner, x) >= 0 {
      assert Depth(scopes, x) >= 0;
      assert x in inner[Depth(scopes, x)];
    }
    StmtsAreLazy(ss, live, w, inner, trace, fuel);
  }

  lemma {:induction false} StmtsAreLazy(ss: seq<Stmt>, live: set<string>, w: World, scopes: Scopes, trace: Trace,
                                        fuel: nat)
    requires QuietStmts(ss, live) && Visible(scopes, live)
    ensures EvalStmts(ss, w, scopes, trace, fuel) == LazyStmts(ss, w, scopes, trace, fuel)
    decreases fuel, ss, 0
  {
    if ss != [] {
      StmtIsLazy(ss[0], live, w, scopes, trace, fuel);
      var r := EvalStmt(ss[0], w, scopes, trace, fuel);
      if r.Normal? {
        MoreVisible(ss[0], live, w, scopes, trace, fuel);
        StmtsAreLazy(ss[1..], if ss[0].VarDecl? then live + {ss[0].name} else live, w, r.scopes, r.trace, fuel);
      }
    }
  }

  lemma MoreVisible(s: Stmt, live: set<string>, w: World, scopes: Scopes, trace: Trace, fuel: nat)
    requires Visible(scopes, live) && EvalStmt(s, w, scopes, trace, fuel).Normal?
    ensures Visible(EvalStmt(s, w, scopes, trace, fuel).scopes, if s.VarDecl? then live + {s.name} else live)
  {
    var after := EvalStmt(s, w, scopes, trace, fuel).scopes;
    StmtKeeps(s, w, scopes, trace, fuel);
    CoversVisible(scopes, after, live);
    if s.VarDecl? {
      assert s.name in after[|after| - 1];
      assert Depth(after, s.name) >= 0;
    }
  }

  // A loop body keeps the live names visible.
  lemma {:induction false} TurnIsLazy(body: Stmt, live: set<string>, w: World, scopes: Scopes, trace: Trace, fuel: nat)
    requires QuietStmt(body, live) && Visible(scopes, live)
    ensures EvalStmt(body, w, scopes, trace, fuel) == LazyStmt(body, w, scopes, trace, fuel)
    ensures var q := EvalStmt(body, w, scopes, trace, fuel); q.Normal? ==> Visible(q.scopes, live)
    decreases fuel, body, 2
  {
    StmtIsLazy(body, live, w, scopes, trace, fuel);
    StmtKeeps(body, w, scopes, trace, fuel);
    var q := EvalStmt(body, w, scopes, trace, fuel);
    if q.Normal? {
      CoversVisible(scopes, q.scopes, live);
    }
  }

  // One turn of both loops.
  lemma LoopsTurn(c: Expr, body: Stmt, w: World, scopes: Scopes, trace: Trace, fuel: nat, r: ExprResult, q: StmtResult)
    requires fuel > 0 && r.Value? && r == EvalExpr(c, w, scopes, trace) == EvalLazy(c, w, scopes, trace) && r.value != 0
    requires q == EvalStmt(body, w, r.scopes, r.trace, fuel) == LazyStmt(body, w, r.scopes, r.trace, fuel)
    ensures EvalLoop(c, body, w, scopes, trace, fuel) ==
      if q.Normal? then EvalLoop(c, body, w, q.scopes, q.trace, fuel - 1) else q
    ensures LazyLoop(c, body, w, scopes, trace, fuel) ==
      if q.Normal? then LazyLoop(c, body, w, q.scopes, q.trace, fuel - 1) else q
  {
  }

  lemma LoopsEnd(c: Expr, body: Stmt, w: World, scopes: Scopes, trace: Trace, fuel: nat, r: ExprResult)
    requires r == EvalExpr(c, w, scopes, trace) == EvalLazy(c, w, scopes, trace) && !(r.Value? && r.value != 0)
    ensures EvalLoop(c, body, w, scopes, trace, fuel) == LazyLoop(c, body, w, scopes, trace, fuel)
  {
  }

  lemma {:induction false} LoopIsLazy(c: Expr, body: Stmt, live: set<string>, w: World, scopes: Scopes, trace: Trace,
                                      fuel: nat)
    requires QuietLogic(c, live) && QuietStmt(body, live) && Visible(scopes, live)
    ensures EvalLoop(c, body, w, scopes, trace, fuel) == LazyLoop(c, body, w, scopes, trace, fuel)
    decreases fuel, body, 3
  {
    if fuel > 0 {
      ThenVisible(c, live, w, scopes, trace);
      var r := EvalExpr(c, w, scopes, trace);
      if r.Value? && r.value != 0 {
        var q := EvalStmt(body, w, r.scopes, r.trace, fuel);
        TurnIsLazy(body, live, w, r.scopes, r.trace, fuel);
        LoopsTurn(c, body, w, scopes, trace, fuel, r, q);
        if q.Normal? {
          LoopIsLazy(c, body, live, w, q.scopes, q.trace, fuel - 1);
        }
      } else {
        LoopsEnd(c, body, w, scopes, trace, fuel, r);
      }
    }
  }

  lemma {:induction false} RepeatIsLazy(body: Stmt, times: nat, live: set<string>, w: World, scopes: Scopes,
                                        trace: Trace, fuel: nat)
    requires QuietStmt(body, live) && Visible(scopes, live)
    ensures Repeat(body, times, w, scopes, trace, fuel) == LazyRepeat(body, times, w, scopes, trace, fuel)
    decreases fuel, body, 2 + times
  {
    if times > 0 {
      StmtIsLazy(body, live, w, scopes, trace, fuel);
      var r := EvalStmt(body, w, scopes, trace, fuel);
      if r.Normal? {
        StmtKeeps(body, w, scopes, trace, fuel);
        CoversVisible(scopes, r.scopes, live);
        RepeatIsLazy(body, times - 1, live, w, r.scopes, r.trace, fuel);
      }
    }
  }

  lemma {:induction false} ArmsAreLazy(arms: seq<MatchArm>, v: int, live: set<string>, w: World, scopes: Scopes,
                                       trace: Trace, fuel: nat)
    requires QuietArms(arms, live) && Visible(scopes, live)
    ensures EvalArms(arms, v, w, scopes, trace, fuel) == LazyArms(arms, v, w, scopes, trace, fuel)
    decreases fuel, arms, 0
  {
    if arms != [] {
      assert (arms decreases to arms[0]) && (arms[0] decreases to arms[0].body);
      if arms[0].pattern.None? {
        StmtIsLazy(arms[0].body, live, w, scopes, trace, fuel);
      } else {
        ThenVisible(arms[0].pattern.value, live, w, scopes, trace);
        var r := EvalExpr(arms[0].pattern.value, w, scopes, trace);
        if r.Value? && r.value == v {
          StmtIsLazy(arms[0].body, live, w, r.scopes, r.trace, fuel);
        } else if r.Value? {
          ArmsAreLazy(arms[1..], v, live, w, r.scopes, r.trace, fuel);
        }
      }
    }
  }

  lemma {:induction false} ParamsVisible(params: seq<string>, args: seq<int>)
    requires |params| == |args|
    ensures ParamScope(params, args).Keys == set x | x in params
    decreases |params|
  {
    if params != [] {
      var n := |params| - 1;
      ParamsVisible(params[..n], args[..n]);
      assert params == params[..n] + [params[n]];
    }
  }

  // A function whose right operands are quiet means the same under both readings.
  lemma FunctionIsLazy(f: FunctionDecl, args: seq<int>, w: World, fuel: nat)
    requires |args| == |f.params| && QuietFunction(f)
    ensures EvalFunction(f, args, w, fuel) == LazyFunction(f, args, w, fuel)
  {
    if f.body.Some? {
      var scopes := [ParamScope(f.params, args)];
      var live := set x | x in f.params;
      ParamsVisible(f.params, args);
      forall x | x in live ensures Depth(scopes, x) >= 0 {
        assert x in scopes[0];
      }
      StmtIsLazy(f.body.value, live, w, scopes, [], fuel);
    }
  }

  ghost predicate EvaluatesLazily(f: FunctionDecl, args: seq<int>, w: World, r: StmtResult)
    requires |args| == |f.params|
  {
    exists fuel: nat :: LazyFunction(f, args, w, fuel) == r
  }

  // So the generated code, which evaluates both operands, ends exactly as the documented
  // short-circuiting meaning says.
  lemma LoweringKeepsLazyResults(f: FunctionDecl, args: seq<int>, w: World, r: StmtResult, c: IrMachine.Config)
    requires OkFunction(f) && QuietFunction(f) && |args| == |f.params| && EndsAs(c, r)
    ensures Reaches(Loading(f, args, w), c) <==> EvaluatesLazily(f, args, w, r)
  {
    LoweringPreservesResults(f, args, w, r, c);
    forall fuel: nat ensures EvalFunction(f, args, w, fuel) == LazyFunction(f, args, w, fuel) {
      FunctionIsLazy(f, args, w, fuel);
    }
    if Evaluates(f, args, w, r) {
      var fuel: nat :| EvalFunction(f, args, w, fuel) == r;
      assert LazyFunction(f, args, w, fuel) == r;
    }
    if EvaluatesLazily(f, args, w, r) {
      var fuel: nat :| LazyFunction(f, args, w, fuel) == r;
      assert EvalFunction(f, args, w, fuel) == r;
    }
  }
}
