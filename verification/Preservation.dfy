// The lowering keeps the meaning of functions, in both directions.
module Preservation {
  import opened Common
  import opened Ast
  import opened Ir
  import opened Runtime
  import opened ScopeStack
  import opened Source
  import opened Codegen
  import opened CodegenFrame
  import opened IrMachine
  import opened Simulation
  import opened ExprSimulation
  import opened StmtSimulation
  import opened ControlSimulation
  import opened Fragment
  import opened BlockNumbers
  import opened CfgNames

  lemma {:induction false} OkStmtCloses(s: Stmt, live: set<string>)
    requires OkStmt(s, live)
    ensures ClosedMatches(s)
    decreases s
  {
    match s
    case Block(ss) => OkStmtsClose(ss, live);
    case If(_, t, other) =>
      OkStmtCloses(t, live);
      if other.Some? {
        OkStmtCloses(other.value, live - Binds(t));
      }
    case While(_, body) => OkStmtCloses(body, live);
    case Vloop(_, body) => OkStmtCloses(body, live);
    case Match(_, arms) =>
      if arms != [] {
        OkArmsClose(arms, live);
      }
    case _ =>
  }

  lemma {:induction false} OkStmtsClose(ss: seq<Stmt>, live: set<string>)
    requires OkStmts(ss, live)
    ensures ClosedMatchesIn(ss)
    decreases ss
  {
    if ss != [] {
      OkStmtCloses(ss[0], live);
      OkStmtsClose(ss[1..], After(ss[0], live));
    }
  }

  lemma {:induction false} OkArmsClose(arms: seq<MatchArm>, live: set<string>)
    requires OkArms(arms, live)
    ensures ClosedArms(arms)
    decreases arms
  {
    assert (arms decreases to arms[0]) && (arms[0] decreases to arms[0].body);
    OkStmtCloses(arms[0].body, live);
    if arms[0].pattern.Some? {
      OkArmsClose(arms[1..], live - Binds(arms[0].body));
    }
  }

  // Parameters.

  lemma ParamStep(m: Machine, g: Gen, i: nat, c: Config)
    requires c.Running? && At(g, c, c.trace) && Extends(Build(g, Param, [IntImm(i)], "").g, m.p.code) && i < |m.p.args|
    ensures Run(m, c, 1) == Define(c, g.regs + 1, Num(m.p.args[i]))
  {
    BuildStep(m, g, Param, [IntImm(i)], "", c);
  }

  lemma SimParam(m: Machine, x: string, i: nat, g: Gen, c: Config, addrs: Addrs, live: set<string>, scopes: Scopes)
    requires i < |m.p.args| && Extends(GenParam(x, i, g), m.p.code) && Ready(m, g, c, addrs, live, scopes, [])
    ensures Ready(m, GenParam(x, i, g), Run(m, c, 3), Declare(addrs, x, |c.mem|), live + {x},
                  Declare(scopes, x, m.p.args[i]), [])
  {
    var slot := Build(g, Alloca, [], x);
    var bound := Bind(slot.g, x, slot.reg);
    var incoming := Build(bound, Param, [IntImm(i)], "");
    var h := EmitStore(incoming.g, incoming.reg, slot.reg);
    assert h == GenParam(x, i, g);
    ExtendsSame(incoming.g, h, m.p.code);
    ExtendsSame(slot.g, incoming.g, m.p.code);
    BindReady(m, g, x, c, addrs, live, scopes, []);
    var c1 := Run(m, c, 1);
    ParamStep(m, bound, i, c1);
    var c2 := Run(m, c1, 1);
    DefineKeeps(c1, incoming.reg, Num(m.p.args[i]), bound.regs, addrs);
    Relink(bound, incoming.g, c1, c2, addrs, live - {x}, live - {x});
    InitStore(m, incoming.g, incoming.reg, slot.reg, c2, m.p.args[i], |c.mem|, x, addrs, live, scopes, []);
    RunAdd(m, c, 1, 1);
    RunAdd(m, c, 2, 1);
  }

  ghost function NamesOf(params: seq<string>): set<string> {
    set x | x in params
  }

  lemma {:induction false} SimParams(m: Machine, params: seq<string>, i: nat, g: Gen, c: Config, addrs: Addrs)
    returns (n: nat, addrs': Addrs)
    requires i <= |params| == |m.p.args| && Extends(GenParams(params[i..], i, g), m.p.code)
    requires Ready(m, g, c, addrs, NamesOf(params[..i]), [ParamScope(params[..i], m.p.args[..i])], [])
    ensures Ready(m, GenParams(params[i..], i, g), Run(m, c, n), addrs', NamesOf(params),
                  [ParamScope(params, m.p.args)], [])
    decreases |params| - i
  {
    if i == |params| {
      assert params[..i] == params && m.p.args[..i] == m.p.args;
      n, addrs' := 0, addrs;
    } else {
      var h := GenParam(params[i], i, g);
      assert params[i..][1..] == params[i + 1..];
      ParamsPlain(params[i + 1..], i + 1, h);
      ExtendsSame(h, GenParams(params[i..], i, g), m.p.code);
      SimParam(m, params[i], i, g, c, addrs, NamesOf(params[..i]), [ParamScope(params[..i], m.p.args[..i])]);
      OneMoreParam(params, m.p.args, i);
      var j;
      j, addrs' := SimParams(m, params, i + 1, h, Run(m, c, 3), Declare(addrs, params[i], |c.mem|));
      RunAdd(m, c, 3, j);
      n := 3 + j;
    }
  }

  lemma OneMoreParam(params: seq<string>, args: seq<int>, i: nat)
    requires i < |params| == |args|
    ensures NamesOf(params[..i + 1]) == NamesOf(params[..i]) + {params[i]}
    ensures [ParamScope(params[..i + 1], args[..i + 1])] == Declare([ParamScope(params[..i], args[..i])], params[i],
                                                                    args[i])
  {
    assert params[..i + 1][..i] == params[..i] && args[..i + 1][..i] == args[..i];
  }

  // Whole functions.

  ghost function Loading(f: FunctionDecl, args: seq<int>, w: World): Machine {
    Boot(Program(GenFunction(f), args, w))
  }

  // The machine has ended as the source evaluation has.
  ghost predicate EndsAs(c: Config, r: StmtResult) {
    match r
    case Returned(v, t) => c == Halted(v, t)
    case Trapped(t) => c == IrMachine.Trapped(t)
    case _ => false
  }

  lemma StartReady(m: Machine)
    ensures Ready(m, EMPTY, START, [map[]], {}, [map[]], [])
  {
  }

  // The generated blocks have unique names and continue every intermediate state.
  lemma FunctionShape(f: FunctionDecl)
    requires OkFunction(f)
    ensures var code := GenFunction(f);
            && UniqueNames(code) && Extends(EmitRet(GenBody(f), NO_REG), code)
            && Extends(GenBody(f), code) && Extends(GenParams(f.params, 0, EMPTY), code)
  {
    var code := GenFunction(f);
    var g := GenParams(f.params, 0, EMPTY);
    var b := GenBody(f);
    BlocksAreClosed(f);
    NamesUniqueIffMatchesClosed(f);
    var h := EmitRet(b, NO_REG);
    assert Extends(h, code);
    ExtendsSame(b, h, code);
    if f.body.Some? {
      OkStmtCloses(f.body.value, NamesOf(f.params));
      StmtVisits(f.body.value, g);
      ExtendsGrows(g, b, code);
    }
  }

  // The machine after it has stored its arguments.
  lemma AtBody(f: FunctionDecl, args: seq<int>, w: World) returns (n: nat, addrs: Addrs)
    requires OkFunction(f) && |args| == |f.params|
    ensures Ready(Loading(f, args, w), GenParams(f.params, 0, EMPTY), Run(Loading(f, args, w), START, n), addrs,
                  NamesOf(f.params), [ParamScope(f.params, args)], [])
  {
    var m := Loading(f, args, w);
    FunctionShape(f);
    StartReady(m);
    assert f.params[0..] == f.params && f.params[..0] == [] && args[..0] == [];
    n, addrs := SimParams(m, f.params, 0, EMPTY, START, [map[]]);
  }

  // Source evaluation that ends is matched by the machine; source evaluation that runs out
  // of fuel is matched by a machine that has run as many steps without ending.
  lemma Forward(f: FunctionDecl, args: seq<int>, w: World, fuel: nat) returns (n: nat)
    requires OkFunction(f) && |args| == |f.params|
    ensures var r := EvalFunction(f, args, w, fuel);
            var c := Run(Loading(f, args, w), START, n);
            if r.OutOfFuel? then c.Running? && n >= fuel else EndsAs(c, r)
  {
    FunctionShape(f);
    var k, addrs := AtBody(f, args, w);
    if f.body.None? {
      n := ReturnAtEnd(Loading(f, args, w), GenBody(f), START, k);
    } else {
      n := BodyForward(f, f.body.value, args, Loading(f, args, w), k, addrs, fuel);
    }
  }

  lemma BodyForward(f: FunctionDecl, s: Stmt, args: seq<int>, m: Machine, k: nat, addrs: Addrs, fuel: nat)
    returns (n: nat)
    requires f.body == Some(s) && OkStmt(s, NamesOf(f.params)) && |args| == |f.params| && UniqueNames(m.p.code)
    requires Extends(EmitRet(GenBody(f), NO_REG), m.p.code) && Extends(GenBody(f), m.p.code)
    requires Ready(m, GenParams(f.params, 0, EMPTY), Run(m, START, k), addrs, NamesOf(f.params),
                   [ParamScope(f.params, args)], [])
    ensures var r := EvalFunction(f, args, m.p.world, fuel);
            var c := Run(m, START, n);
            if r.OutOfFuel? then c.Running? && n >= fuel else EndsAs(c, r)
  {
    var scopes := [ParamScope(f.params, args)];
    var j := SimStmt(m, s, GenParams(f.params, 0, EMPTY), Run(m, START, k), addrs, NamesOf(f.params), scopes, [], fuel);
    RunAdd(m, START, k, j);
    n := k + j;
    if EvalStmt(s, m.p.world, scopes, [], fuel).Normal? {
      n := ReturnAtEnd(m, GenBody(f), START, n);
    }
  }

  // Falling off the end of the body reaches the bare return.
  lemma ReturnAtEnd(m: Machine, b: Gen, c: Config, n: nat) returns (j: nat)
    requires Extends(EmitRet(b, NO_REG), m.p.code) && Run(m, c, n).Running? && At(b, Run(m, c, n), Run(m, c, n).trace)
    ensures Run(m, c, j) == Halted(None, Run(m, c, n).trace)
  {
    ExecRet(m, b, NO_REG, 0, Run(m, c, n));
    RunAdd(m, c, n, 1);
    j := n + 1;
  }

  // A machine that has ended by step n is in the same configuration at every later step.
  lemma EndedAt(m: Machine, c: Config, n: nat, k: nat)
    requires !Run(m, c, n).Running? && n <= k
    ensures Run(m, c, k) == Run(m, c, n)
  {
    RunAdd(m, c, n, k - n);
    RunEnded(m, Run(m, c, n), k - n);
  }

  lemma SameEnd(m: Machine, c: Config, n: nat, k: nat)
    requires !Run(m, c, n).Running? && !Run(m, c, k).Running?
    ensures Run(m, c, n) == Run(m, c, k)
  {
    if n <= k {
      EndedAt(m, c, n, k);
    } else {
      EndedAt(m, c, k, n);
    }
  }

  // A machine that has ended is matched by source evaluation with enough fuel.
  lemma Backward(f: FunctionDecl, args: seq<int>, w: World, n: nat)
    requires OkFunction(f) && |args| == |f.params|
    requires !Run(Loading(f, args, w), START, n).Running?
    ensures EndsAs(Run(Loading(f, args, w), START, n), EvalFunction(f, args, w, n + 1))
  {
    var m := Loading(f, args, w);
    var k := Forward(f, args, w, n + 1);
    if k >= n {
      EndedAt(m, START, n, k);
    }
    SameEnd(m, START, n, k);
  }

  ghost predicate Reaches(m: Machine, c: Config) {
    exists n: nat :: Run(m, START, n) == c
  }

  ghost predicate Evaluates(f: FunctionDecl, args: seq<int>, w: World, r: StmtResult)
    requires |args| == |f.params|
  {
    exists fuel: nat :: EvalFunction(f, args, w, fuel) == r
  }

  // Generated code returns a value, or traps, after a history of calls exactly when the
  // source function does.
  lemma LoweringPreservesResults(f: FunctionDecl, args: seq<int>, w: World, r: StmtResult, c: Config)
    requires OkFunction(f) && |args| == |f.params| && EndsAs(c, r)
    ensures Reaches(Loading(f, args, w), c) <==> Evaluates(f, args, w, r)
  {
    var m := Loading(f, args, w);
    if Reaches(m, c) {
      var n: nat :| Run(m, START, n) == c;
      Backward(f, args, w, n);
      assert EvalFunction(f, args, w, n + 1) == r;
    }
    if Evaluates(f, args, w, r) {
      var fuel: nat :| EvalFunction(f, args, w, fuel) == r;
      var n := Forward(f, args, w, fuel);
      assert Run(m, START, n) == c;
    }
  }

  // It runs forever exactly when the source function does.
  lemma LoweringPreservesDivergence(f: FunctionDecl, args: seq<int>, w: World)
    requires OkFunction(f) && |args| == |f.params|
    ensures (forall n: nat :: Run(Loading(f, args, w), START, n).Running?)
       <==> (forall fuel: nat :: EvalFunction(f, args, w, fuel).OutOfFuel?)
  {
    var m := Loading(f, args, w);
    if exists n: nat :: !Run(m, START, n).Running? {
      var n: nat :| !Run(m, START, n).Running?;
      Backward(f, args, w, n);
      assert !EvalFunction(f, args, w, n + 1).OutOfFuel?;
    }
    if exists fuel: nat :: !EvalFunction(f, args, w, fuel).OutOfFuel? {
      var fuel: nat :| !EvalFunction(f, args, w, fuel).OutOfFuel?;
      var n := Forward(f, args, w, fuel);
      assert !Run(m, START, n).Running?;
    }
  }

  // It never does anything the representation gives no meaning to: no register is read
  // before it is written, no cell before it is stored to, and no branch goes astray.
  lemma NeverStuck(f: FunctionDecl, args: seq<int>, w: World, n: nat)
    requires OkFunction(f) && |args| == |f.params|
    ensures !Run(Loading(f, args, w), START, n).Stuck?
  {
    if !Run(Loading(f, args, w), START, n).Running? {
      Backward(f, args, w, n);
    }
  }

  // Counted loops.

  predicate OnlyCountedLoops(s: Stmt)
    decreases s, 0
  {
    match s
    case Block(ss) => OnlyCountedLoopsIn(ss)
    case If(_, t, None) => OnlyCountedLoops(t)
    case If(_, t, Some(f)) => OnlyCountedLoops(t) && OnlyCountedLoops(f)
    case While(_, _) => false
    case Vloop(c, body) => c.IntLit? && OnlyCountedLoops(body)
    case For(_, _, _) => false
    case Match(_, arms) => OnlyCountedLoopsInArms(arms)
    case _ => true
  }

  predicate OnlyCountedLoopsIn(ss: seq<Stmt>)
    decreases ss, 0
  {
    ss == [] || (OnlyCountedLoops(ss[0]) && OnlyCountedLoopsIn(ss[1..]))
  }

  predicate OnlyCountedLoopsInArms(arms: seq<MatchArm>)
    decreases arms, 0
  {
    arms == [] ||
    ((assert (arms decreases to arms[0]) && (arms[0] decreases to arms[0].body);
      OnlyCountedLoops(arms[0].body)) && OnlyCountedLoopsInArms(arms[1..]))
  }

  lemma {:induction false} CountedEnds(s: Stmt, w: World, scopes: Scopes, trace: Trace, fuel: nat)
    requires OnlyCountedLoops(s)
    ensures !EvalStmt(s, w, scopes, trace, fuel).OutOfFuel?
    decreases s, 0
  {
    match s
    case Block(ss) => CountedEndsIn(ss, w, scopes + [map[]], trace, fuel);
    case If(c, t, other) =>
      var r := EvalExpr(c, w, scopes, trace);
      if r.Value? {
        CountedEnds(t, w, r.scopes, r.trace, fuel);
        if other.Some? {
          CountedEnds(other.value, w, r.scopes, r.trace, fuel);
        }
      }
    case Vloop(c, body) => RepeatEnds(body, Times(c.value), w, scopes, trace, fuel);
    case Match(subject, arms) =>
      var r := EvalExpr(subject, w, scopes, trace);
      if r.Value? {
        CountedEndsInArms(arms, r.value, w, r.scopes, r.trace, fuel);
      }
    case _ =>
  }

  lemma {:induction false} CountedEndsIn(ss: seq<Stmt>, w: World, scopes: Scopes, trace: Trace, fuel: nat)
    requires OnlyCountedLoopsIn(ss)
    ensures !EvalStmts(ss, w, scopes, trace, fuel).OutOfFuel?
    decreases ss, 0
  {
    if ss != [] {
      CountedEnds(ss[0], w, scopes, trace, fuel);
      var r := EvalStmt(ss[0], w, scopes, trace, fuel);
      if r.Normal? {
        CountedEndsIn(ss[1..], w, r.scopes, r.trace, fuel);
      }
    }
  }

  lemma {:induction false} RepeatEnds(body: Stmt, times: nat, w: World, scopes: Scopes, trace: Trace, fuel: nat)
    requires OnlyCountedLoops(body)
    ensures !Repeat(body, times, w, scopes, trace, fuel).OutOfFuel?
    decreases body, 1 + times
  {
    if times > 0 {
      CountedEnds(body, w, scopes, trace, fuel);
      var r := EvalStmt(body, w, scopes, trace, fuel);
      if r.Normal? {
        RepeatEnds(body, times - 1, w, r.scopes, r.trace, fuel);
      }
    }
  }

  lemma {:induction false} CountedEndsInArms(arms: seq<MatchArm>, v: int, w: World, scopes: Scopes, trace: Trace,
                                             fuel: nat)
    requires OnlyCountedLoopsInArms(arms)
    ensures !EvalArms(arms, v, w, scopes, trace, fuel).OutOfFuel?
    decreases arms, 0
  {
    if arms != [] {
      var MatchArm(pattern, body) := arms[0];
      assert (arms decreases to arms[0]) && (arms[0] decreases to body);
      var r := if pattern.None? then Value(0, scopes, trace) else EvalExpr(pattern.value, w, scopes, trace);
      if r.Value? {
        CountedEnds(body, w, r.scopes, r.trace, fuel);
        CountedEndsInArms(arms[1..], v, w, r.scopes, r.trace, fuel);
      }
    }
  }

  // Generated code whose only loops are counted always returns or traps.
  lemma CountedLoopsEnd(f: FunctionDecl, args: seq<int>, w: World)
    requires OkFunction(f) && |args| == |f.params|
    requires f.body.Some? ==> OnlyCountedLoops(f.body.value)
    ensures exists n :: var c := Run(Loading(f, args, w), START, n); c.Halted? || c.Trapped?
  {
    if f.body.Some? {
      CountedEnds(f.body.value, w, [ParamScope(f.params, args)], [], 0);
    }
    var n := Forward(f, args, w, 0);
  }
}
