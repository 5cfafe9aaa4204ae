// Generated expression code computes the value of the expression.
module ExprSimulation {
  import opened Common
  import opened Ast
  import opened Ir
  import opened Runtime
  import opened ScopeStack
  import opened Source
  import opened Codegen
  import opened CodegenFrame
  import opened IrMachine
  import opened Simulation
  import opened Fragment
  import Int64

  // After n steps the machine agrees with the source result. A value is in the result
  // register, and the machine stands at the end of the generated code.
  ghost predicate ExprDone(m: Machine, g: Gen, er: ExprGen, c: Config, n: nat, addrs: Addrs, res: ExprResult)
    requires c.Running?
  {
    var d := Run(m, c, n);
    match res
    case Value(v, s, t) =>
      && At(er.g, d, t)
      && 1 <= er.reg <= er.g.regs && er.reg in d.regs && d.regs[er.reg] == Num(v)
      && Synced(addrs, s, d.mem)
      && Keeps(c, d, g.regs, addrs)
    case Trap(t) => d == IrMachine.Trapped(t)
    case Wrong => false
  }

  // Everything a piece of code may rely on when it starts.
  ghost predicate Ready(m: Machine, g: Gen, c: Config, addrs: Addrs, live: set<string>, scopes: Scopes, trace: Trace) {
    && At(g, c, trace)
    && Synced(addrs, scopes, c.mem)
    && Linked(addrs, g.slots, c.regs, g.regs, live)
  }

  lemma BuildStep(m: Machine, g: Gen, op: Opcode, operands: seq<Operand>, tag: string, c: Config)
    requires Extends(Build(g, op, operands, tag).g, m.p.code)
    requires c.Running? && At(g, c, c.trace)
    ensures Run(m, c, 1) == Exec(m.p, Instr(op, g.regs + 1, operands, tag), c)
  {
    StepAt(m, g, Instr(op, g.regs + 1, operands, tag), c);
  }

  lemma DefineKeeps(c: Config, r: RegID, v: Val, k: nat, addrs: Addrs)
    requires c.Running? && k < r
    ensures Keeps(c, Define(c, r, v), k, addrs)
  {
  }

  // An instruction that puts v in a fresh register finishes the expression.
  lemma DefineDone(m: Machine, g: Gen, op: Opcode, operands: seq<Operand>, tag: string, c: Config,
                   addrs: Addrs, scopes: Scopes, v: int, trace: Trace)
    requires Extends(Build(g, op, operands, tag).g, m.p.code)
    requires At(g, c, trace) && Synced(addrs, scopes, c.mem)
    requires Exec(m.p, Instr(op, g.regs + 1, operands, tag), c) == Define(c, g.regs + 1, Num(v))
    ensures ExprDone(m, g, Build(g, op, operands, tag), c, 1, addrs, Value(v, scopes, trace))
  {
    BuildStep(m, g, op, operands, tag, c);
    DefineKeeps(c, g.regs + 1, Num(v), g.regs, addrs);
  }

  // From the state after one expression to the start of the next piece of code.
  lemma ReadyAfter(m: Machine, g: Gen, er: ExprGen, c: Config, n: nat, addrs: Addrs, live: set<string>,
                   scopes: Scopes, trace: Trace, v: int, s: Scopes, t: Trace)
    requires Ready(m, g, c, addrs, live, scopes, trace)
    requires ExprDone(m, g, er, c, n, addrs, Value(v, s, t)) && SameBlock(g, er.g)
    ensures Ready(m, er.g, Run(m, c, n), addrs, live, s, t)
  {
    LinkedKeeps(addrs, g.slots, c, Run(m, c, n), g.regs, er.g.regs, live);
  }

  // A first piece of code, then a second one that ends the expression.
  lemma Sequence(m: Machine, g: Gen, h: Gen, er: ExprGen, c: Config, n: nat, k: nat, addrs: Addrs, res: ExprResult)
    requires c.Running? && g.regs <= h.regs
    requires Run(m, c, n).Running? && Keeps(c, Run(m, c, n), g.regs, addrs)
    requires ExprDone(m, h, er, Run(m, c, n), k, addrs, res)
    ensures ExprDone(m, g, er, c, n + k, addrs, res)
  {
    RunAdd(m, c, n, k);
    if res.Value? {
      KeepsTrans(c, Run(m, c, n), Run(m, c, n + k), g.regs, h.regs, addrs);
    }
  }

  lemma BinaryAgrees(op: Ast.BinaryOp, a: int, b: int)
    ensures IrMachine.BinaryOp(BinaryOpcode(op), a, b) == Some(BinaryValue(op, a, b))
    ensures IrMachine.UnaryOp(BinaryOpcode(op), a) == None
  {
  }

  lemma CompoundAgrees(op: AssignOp)
    requires !op.Assign?
    ensures AssignOpcode(op) == BinaryOpcode(CompoundOp(op))
  {
  }

  lemma UnaryAgrees(op: Ast.UnaryOp, a: int)
    requires op.Neg? || op.Not? || op.BitNot?
    ensures IrMachine.UnaryOp(UnaryOpcode(op), a) == UnaryValue(op, a)
  {
  }

  // The operation on two registers.
  lemma BinaryStep(m: Machine, g: Gen, op: Ast.BinaryOp, l: RegID, r: RegID, c: Config, addrs: Addrs,
                   scopes: Scopes, trace: Trace, a: int, b: int)
    requires Extends(Build(g, BinaryOpcode(op), [Reg(l), Reg(r)], "").g, m.p.code)
    requires At(g, c, trace) && Synced(addrs, scopes, c.mem)
    requires l in c.regs && c.regs[l] == Num(a) && r in c.regs && c.regs[r] == Num(b)
    ensures ExprDone(m, g, Build(g, BinaryOpcode(op), [Reg(l), Reg(r)], ""), c, 1, addrs,
                     Finish(BinaryValue(op, a, b), scopes, trace))
  {
    BinaryAgrees(op, a, b);
    var i := Instr(BinaryOpcode(op), g.regs + 1, [Reg(l), Reg(r)], "");
    BuildStep(m, g, BinaryOpcode(op), [Reg(l), Reg(r)], "", c);
    assert Exec(m.p, i, c) == ExecValue(m.p, i, c);
    match BinaryValue(op, a, b)
    case None =>
    case Some(v) =>
      DefineDone(m, g, BinaryOpcode(op), [Reg(l), Reg(r)], "", c, addrs, scopes, v, trace);
  }

  lemma UnaryStep(m: Machine, g: Gen, op: Ast.UnaryOp, r: RegID, c: Config, addrs: Addrs,
                  scopes: Scopes, trace: Trace, a: int)
    requires op.Neg? || op.Not? || op.BitNot?
    requires Extends(Build(g, UnaryOpcode(op), [Reg(r)], "").g, m.p.code)
    requires At(g, c, trace) && Synced(addrs, scopes, c.mem)
    requires r in c.regs && c.regs[r] == Num(a)
    ensures ExprDone(m, g, Build(g, UnaryOpcode(op), [Reg(r)], ""), c, 1, addrs,
                     Finish(UnaryValue(op, a), scopes, trace))
  {
    UnaryAgrees(op, a);
    DefineDone(m, g, UnaryOpcode(op), [Reg(r)], "", c, addrs, scopes, UnaryValue(op, a).value, trace);
  }

  // Reading a live variable loads its value.
  lemma LoadStep(m: Machine, g: Gen, x: string, c: Config, addrs: Addrs, live: set<string>, scopes: Scopes,
                 trace: Trace)
    requires x in live && Ready(m, g, c, addrs, live, scopes, trace)
    requires x in g.slots && Extends(Build(g, Load, [Reg(g.slots[x])], "").g, m.p.code)
    ensures Lookup(scopes, x).Some?
    ensures ExprDone(m, g, Build(g, Load, [Reg(g.slots[x])], ""), c, 1, addrs,
                     Value(Lookup(scopes, x).value, scopes, trace))
  {
    SyncedLookup(addrs, scopes, c.mem, x);
    DefineDone(m, g, Load, [Reg(g.slots[x])], "", c, addrs, scopes, Lookup(scopes, x).value, trace);
  }

  // Writing a variable's cell keeps registers and every cell that is not a variable's.
  lemma WriteKeeps(c: Config, d: Config, a: nat, v: int, k: nat, addrs: Addrs)
    requires c.Running? && a < |c.mem| && Owns(addrs, a)
    requires d.Running? && d.regs == c.regs && d.mem == c.mem[a := Some(v)]
    ensures Keeps(c, d, k, addrs)
  {
  }

  lemma ExecStore(m: Machine, value: RegID, ptr: RegID, c: Config, v: int, a: nat)
    requires c.Running? && value in c.regs && c.regs[value] == Num(v)
    requires ptr in c.regs && c.regs[ptr] == Ptr(a) && a < |c.mem|
    ensures Exec(m.p, Instr(Store, NO_REG, [Reg(value), Reg(ptr)], ""), c)
         == Running(c.block, c.pc + 1, c.regs, c.mem[a := Some(v)], c.trace)
  {
  }

  // The store that ends an assignment to a live variable.
  lemma StoreStep(m: Machine, g: Gen, target: Expr, r: RegID, c: Config, addrs: Addrs, live: set<string>,
                  scopes: Scopes, trace: Trace, v: int)
    requires target.Ident? && target.name in live && Ready(m, g, c, addrs, live, scopes, trace)
    requires Extends(StoreTo(g, target, r), m.p.code)
    requires 1 <= r <= g.regs && r in c.regs && c.regs[r] == Num(v)
    ensures Depth(scopes, target.name) >= 0
    ensures ExprDone(m, g, ExprGen(StoreTo(g, target, r), r), c, 1, addrs,
                     Value(v, Update(scopes, target.name, v), trace))
  {
    var x := target.name;
    SyncedAssign(addrs, scopes, c.mem, x, v);
    var a := Lookup(addrs, x).value;
    StepAt(m, g, Instr(Store, NO_REG, [Reg(r), Reg(g.slots[x])], ""), c);
    ExecStore(m, r, g.slots[x], c, v, a);
    WriteKeeps(c, Run(m, c, 1), a, v, g.regs, addrs);
  }

  lemma CallStep(m: Machine, g: Gen, f: string, rs: seq<RegID>, vs: seq<int>, c: Config, addrs: Addrs,
                 scopes: Scopes, trace: Trace)
    requires Extends(Build(g, Opcode.Call, RegOperands(rs), f).g, m.p.code)
    requires At(g, c, trace) && Synced(addrs, scopes, c.mem)
    requires NumsIn(c, RegOperands(rs)) == Some(vs)
    ensures ExprDone(m, g, Build(g, Opcode.Call, RegOperands(rs), f), c, 1, addrs,
                     Invoke(m.p.world, f, vs, scopes, trace))
  {
    BuildStep(m, g, Opcode.Call, RegOperands(rs), f, c);
    match m.p.world(trace, f, vs)
    case None =>
    case Some(v) =>
      var called := Running(c.block, c.pc, c.regs, c.mem, c.trace + [Event(f, vs, v)]);
      DefineKeeps(called, g.regs + 1, Num(v), g.regs, addrs);
  }

  // Registers that hold the argument values.
  ghost predicate HoldsAll(c: Config, rs: seq<RegID>, vs: seq<int>) {
    c.Running? && |rs| == |vs| &&
    forall i :: 0 <= i < |rs| ==> rs[i] in c.regs && c.regs[rs[i]] == Num(vs[i])
  }

  lemma {:induction false} HoldsAllNums(c: Config, rs: seq<RegID>, vs: seq<int>)
    requires HoldsAll(c, rs, vs)
    ensures NumsIn(c, RegOperands(rs)) == Some(vs)
  {
    var os := RegOperands(rs);
    if rs != [] {
      assert os[1..] == RegOperands(rs[1..]);
      HoldsAllNums(c, rs[1..], vs[1..]);
      assert [vs[0]] + vs[1..] == vs;
    }
  }

  ghost predicate ArgsDone(m: Machine, g: Gen, ag: ArgsGen, c: Config, n: nat, addrs: Addrs, res: ArgsResult)
    requires c.Running?
  {
    var d := Run(m, c, n);
    match res
    case Values(vs, s, t) =>
      && At(ag.g, d, t)
      && HoldsAll(d, ag.regs, vs)
      && (forall i :: 0 <= i < |ag.regs| ==> ag.regs[i] <= ag.g.regs)
      && Synced(addrs, s, d.mem)
      && Keeps(c, d, g.regs, addrs)
    case ArgsTrap(t) => d == IrMachine.Trapped(t)
    case ArgsWrong => false
  }

  lemma {:induction false} SimExpr(m: Machine, e: Expr, g: Gen, c: Config, addrs: Addrs, live: set<string>,
                                   scopes: Scopes, trace: Trace) returns (n: nat)
    requires OkExpr(e, live) && Extends(GenExpr(e, g).g, m.p.code)
    requires Ready(m, g, c, addrs, live, scopes, trace)
    ensures ExprDone(m, g, GenExpr(e, g), c, n, addrs, EvalExpr(e, m.p.world, scopes, trace))
    decreases e, 2
  {
    match e
    case Binary(op, l, r) =>
      n := SimTwo(m, e, l, r, op, g, c, addrs, live, scopes, trace);
    case Unary(_, _) =>
      n := SimUnary(m, e, g, c, addrs, live, scopes, trace);
    case AssignExpr(_, _, _) =>
      n := SimAssign(m, e, g, c, addrs, live, scopes, trace);
    case Call(_, _) =>
      n := SimCall(m, e, g, c, addrs, live, scopes, trace);
    case _ =>
      n := SimLeaf(m, e, g, c, addrs, live, scopes, trace);
  }

  lemma SimLeaf(m: Machine, e: Expr, g: Gen, c: Config, addrs: Addrs, live: set<string>,
                scopes: Scopes, trace: Trace) returns (n: nat)
    requires e.IntLit? || e.CharLit? || e.BoolLit? || e.NilLit? || e.Ident?
    requires OkExpr(e, live) && Extends(GenExpr(e, g).g, m.p.code)
    requires Ready(m, g, c, addrs, live, scopes, trace)
    ensures ExprDone(m, g, GenExpr(e, g), c, n, addrs, EvalExpr(e, m.p.world, scopes, trace))
  {
    n := 1;
    match e
    case IntLit(v) => DefineDone(m, g, Copy, [IntImm(v)], "", c, addrs, scopes, v, trace);
    case CharLit(v) => DefineDone(m, g, Copy, [IntImm(v)], "", c, addrs, scopes, v, trace);
    case BoolLit(b) => DefineDone(m, g, Copy, [BoolImm(b)], "", c, addrs, scopes, Int64.Truth(b), trace);
    case NilLit => DefineDone(m, g, Copy, [IntImm(0)], "nil", c, addrs, scopes, 0, trace);
    case Ident(x) =>
      if IsBareCall(x) {
        assert RegOperands([]) == [];
        CallStep(m, g, x, [], [], c, addrs, scopes, trace);
      } else {
        LoadStep(m, g, x, c, addrs, live, scopes, trace);
      }
  }

  lemma {:induction false} SimUnary(m: Machine, e: Expr, g: Gen, c: Config, addrs: Addrs, live: set<string>,
                                    scopes: Scopes, trace: Trace) returns (n: nat)
    requires e.Unary? && OkExpr(e, live) && Extends(GenExpr(e, g).g, m.p.code)
    requires Ready(m, g, c, addrs, live, scopes, trace)
    ensures ExprDone(m, g, GenExpr(e, g), c, n, addrs, EvalExpr(e, m.p.world, scopes, trace))
    decreases e, 1
  {
    var Unary(op, x) := e;
    var a := GenExpr(x, g);
    ExprPlain(x, g);
    ExtendsSame(a.g, GenExpr(e, g).g, m.p.code);
    n := SimExpr(m, x, g, c, addrs, live, scopes, trace);
    if EvalExpr(x, m.p.world, scopes, trace).Value? {
      var Value(v, s1, t1) := EvalExpr(x, m.p.world, scopes, trace);
      UnaryStep(m, a.g, op, a.reg, Run(m, c, n), addrs, s1, t1, v);
      Sequence(m, g, a.g, GenExpr(e, g), c, n, 1, addrs, EvalExpr(e, m.p.world, scopes, trace));
      n := n + 1;
    }
  }

  // Two operands from left to right, then the operation.
  lemma {:induction false} SimTwo(m: Machine, whole: Expr, l: Expr, r: Expr, op: Ast.BinaryOp, g: Gen, c: Config,
                                  addrs: Addrs, live: set<string>, scopes: Scopes, trace: Trace) returns (n: nat)
    requires (whole decreases to l) && (whole decreases to r)
    requires OkExpr(l, live) && OkExpr(r, live)
    requires Extends(Build(GenExpr(r, GenExpr(l, g).g).g, BinaryOpcode(op),
                           [Reg(GenExpr(l, g).reg), Reg(GenExpr(r, GenExpr(l, g).g).reg)], "").g, m.p.code)
    requires Ready(m, g, c, addrs, live, scopes, trace)
    ensures ExprDone(m, g, Build(GenExpr(r, GenExpr(l, g).g).g, BinaryOpcode(op),
                                 [Reg(GenExpr(l, g).reg), Reg(GenExpr(r, GenExpr(l, g).g).reg)], ""),
                     c, n, addrs, EvalExpr(Binary(op, l, r), m.p.world, scopes, trace))
    decreases whole, 0, 2
  {
    var a := GenExpr(l, g);
    var b := GenExpr(r, a.g);
    var z := Build(b.g, BinaryOpcode(op), [Reg(a.reg), Reg(b.reg)], "");
    ExprPlain(l, g);
    ExprPlain(r, a.g);
    ExtendsSame(b.g, z.g, m.p.code);
    ExtendsSame(a.g, b.g, m.p.code);
    n := SimExpr(m, l, g, c, addrs, live, scopes, trace);
    var first := EvalExpr(l, m.p.world, scopes, trace);
    BinaryMeans(op, l, r, m.p.world, scopes, trace, first);
    if first.Value? {
      n := FromFirst(m, whole, r, op, g, a, z, c, n, addrs, live, scopes, trace, first.value, first.scopes,
                     first.trace);
    }
  }

  lemma BinaryMeans(op: Ast.BinaryOp, l: Expr, r: Expr, w: World, scopes: Scopes, trace: Trace, first: ExprResult)
    requires first == EvalExpr(l, w, scopes, trace)
    ensures EvalExpr(Binary(op, l, r), w, scopes, trace) ==
      if first.Value? then AfterSecond(op, first.value, EvalExpr(r, w, first.scopes, first.trace)) else first
  {
  }

  // The left operand is known.
  lemma {:induction false} FromFirst(m: Machine, whole: Expr, r: Expr, op: Ast.BinaryOp, g: Gen, a: ExprGen, z: ExprGen,
                                     c: Config, i: nat, addrs: Addrs, live: set<string>, scopes: Scopes, trace: Trace,
                                     u: int, s1: Scopes, t1: Trace) returns (n: nat)
    requires (whole decreases to r) && OkExpr(r, live) && Ready(m, g, c, addrs, live, scopes, trace)
    requires SameBlock(g, a.g) && ExprDone(m, g, a, c, i, addrs, Value(u, s1, t1))
    requires z == Build(GenExpr(r, a.g).g, BinaryOpcode(op), [Reg(a.reg), Reg(GenExpr(r, a.g).reg)], "")
    requires Extends(z.g, m.p.code)
    ensures ExprDone(m, g, z, c, n, addrs, AfterSecond(op, u, EvalExpr(r, m.p.world, s1, t1)))
    decreases whole, 0, 1
  {
    ReadyAfter(m, g, a, c, i, addrs, live, scopes, trace, u, s1, t1);
    n := SimSecond(m, whole, r, op, a, Run(m, c, i), addrs, live, s1, t1, u);
    Sequence(m, g, a.g, z, c, i, n, addrs, AfterSecond(op, u, EvalExpr(r, m.p.world, s1, t1)));
    n := i + n;
  }

  // The right operand and the operation.
  lemma {:induction false} SimSecond(m: Machine, whole: Expr, r: Expr, op: Ast.BinaryOp, a: ExprGen, c: Config,
                                     addrs: Addrs, live: set<string>, scopes: Scopes, trace: Trace, u: int)
    returns (k: nat)
    requires (whole decreases to r) && OkExpr(r, live) && Ready(m, a.g, c, addrs, live, scopes, trace)
    requires 1 <= a.reg <= a.g.regs && a.reg in c.regs && c.regs[a.reg] == Num(u)
    requires var b := GenExpr(r, a.g);
             Extends(Build(b.g, BinaryOpcode(op), [Reg(a.reg), Reg(b.reg)], "").g, m.p.code)
    ensures var b := GenExpr(r, a.g);
            ExprDone(m, a.g, Build(b.g, BinaryOpcode(op), [Reg(a.reg), Reg(b.reg)], ""), c, k, addrs,
                     AfterSecond(op, u, EvalExpr(r, m.p.world, scopes, trace)))
    decreases whole, 0, 0
  {
    var b := GenExpr(r, a.g);
    ExprPlain(r, a.g);
    ExtendsSame(b.g, Build(b.g, BinaryOpcode(op), [Reg(a.reg), Reg(b.reg)], "").g, m.p.code);
    k := SimExpr(m, r, a.g, c, addrs, live, scopes, trace);
    k := SecondDone(m, op, a, b, c, k, addrs, u, EvalExpr(r, m.p.world, scopes, trace));
  }

  // What is left of a binary operation once its left operand is known.
  function AfterSecond(op: Ast.BinaryOp, u: int, res: ExprResult): ExprResult {
    match res
    case Value(v, s, t) => Finish(BinaryValue(op, u, v), s, t)
    case stop => stop
  }

  lemma SecondDone(m: Machine, op: Ast.BinaryOp, a: ExprGen, b: ExprGen, c: Config, n: nat, addrs: Addrs,
                   u: int, res: ExprResult) returns (k: nat)
    requires c.Running? && 1 <= a.reg <= a.g.regs && a.reg in c.regs && c.regs[a.reg] == Num(u)
    requires SameBlock(a.g, b.g) && ExprDone(m, a.g, b, c, n, addrs, res)
    requires Extends(Build(b.g, BinaryOpcode(op), [Reg(a.reg), Reg(b.reg)], "").g, m.p.code)
    ensures ExprDone(m, a.g, Build(b.g, BinaryOpcode(op), [Reg(a.reg), Reg(b.reg)], ""), c, k, addrs,
                     AfterSecond(op, u, res))
  {
    k := n;
    if res.Value? {
      BinaryStep(m, b.g, op, a.reg, b.reg, Run(m, c, n), addrs, res.scopes, res.trace, u, res.value);
      Sequence(m, a.g, b.g, Build(b.g, BinaryOpcode(op), [Reg(a.reg), Reg(b.reg)], ""), c, n, 1, addrs,
               AfterSecond(op, u, res));
      k := n + 1;
    }
  }

  // A computed value and the store to its variable.
  lemma AssignValueDone(m: Machine, g: Gen, er: ExprGen, target: Expr, c: Config, n: nat, addrs: Addrs,
                        live: set<string>,
                        scopes: Scopes, trace: Trace, v: int, s: Scopes, t: Trace)
    requires Ready(m, g, c, addrs, live, scopes, trace) && SameBlock(g, er.g)
    requires ExprDone(m, g, er, c, n, addrs, Value(v, s, t))
    requires target.Ident? && target.name in live && Extends(StoreTo(er.g, target, er.reg), m.p.code)
    ensures Depth(s, target.name) >= 0
    ensures ExprDone(m, g, ExprGen(StoreTo(er.g, target, er.reg), er.reg), c, n + 1, addrs,
                     Value(v, Update(s, target.name, v), t))
  {
    var z := ExprGen(StoreTo(er.g, target, er.reg), er.reg);
    ReadyAfter(m, g, er, c, n, addrs, live, scopes, trace, v, s, t);
    StoreStep(m, er.g, target, er.reg, Run(m, c, n), addrs, live, s, t, v);
    Sequence(m, g, er.g, z, c, n, 1, addrs, Value(v, Update(s, target.name, v), t));
  }

  lemma AssignDone(m: Machine, g: Gen, er: ExprGen, target: Expr, c: Config, n: nat, addrs: Addrs, live: set<string>,
                   scopes: Scopes, trace: Trace, res: ExprResult) returns (k: nat)
    requires Ready(m, g, c, addrs, live, scopes, trace) && SameBlock(g, er.g)
    requires ExprDone(m, g, er, c, n, addrs, res)
    requires target.Ident? && target.name in live && Extends(StoreTo(er.g, target, er.reg), m.p.code)
    ensures ExprDone(m, g, ExprGen(StoreTo(er.g, target, er.reg), er.reg), c, k, addrs, AssignResult(target.name, res))
  {
    match res
    case Value(v, s, t) =>
      AssignValueDone(m, g, er, target, c, n, addrs, live, scopes, trace, v, s, t);
      assert AssignResult(target.name, res) == Value(v, Update(s, target.name, v), t);
      k := n + 1;
    case Trap(t) =>
      assert AssignResult(target.name, res) == res;
      k := n;
  }

  lemma {:induction false} SimAssign(m: Machine, e: Expr, g: Gen, c: Config, addrs: Addrs, live: set<string>,
                                     scopes: Scopes, trace: Trace) returns (n: nat)
    requires e.AssignExpr? && OkExpr(e, live) && Extends(GenExpr(e, g).g, m.p.code)
    requires Ready(m, g, c, addrs, live, scopes, trace)
    ensures ExprDone(m, g, GenExpr(e, g), c, n, addrs, EvalExpr(e, m.p.world, scopes, trace))
    decreases e, 1
  {
    var AssignExpr(op, target, value) := e;
    if op.Assign? {
      var a := GenExpr(value, g);
      ExprPlain(value, g);
      ExtendsSame(a.g, StoreTo(a.g, target, a.reg), m.p.code);
      n := SimExpr(m, value, g, c, addrs, live, scopes, trace);
      n := AssignDone(m, g, a, target, c, n, addrs, live, scopes, trace, EvalExpr(value, m.p.world, scopes, trace));
    } else {
      CompoundAgrees(op);
      var a := GenExpr(target, g);
      var b := GenExpr(value, a.g);
      var z := Build(b.g, AssignOpcode(op), [Reg(a.reg), Reg(b.reg)], "");
      ExprPlain(target, g);
      ExprPlain(value, a.g);
      ExtendsSame(z.g, StoreTo(z.g, target, z.reg), m.p.code);
      n := SimTwo(m, e, target, value, CompoundOp(op), g, c, addrs, live, scopes, trace);
      n := AssignDone(m, g, z, target, c, n, addrs, live, scopes, trace,
                      EvalExpr(Binary(CompoundOp(op), target, value), m.p.world, scopes, trace));
    }
  }

  lemma {:induction false} SimCall(m: Machine, e: Expr, g: Gen, c: Config, addrs: Addrs, live: set<string>,
                                   scopes: Scopes, trace: Trace) returns (n: nat)
    requires e.Call? && OkExpr(e, live) && Extends(GenExpr(e, g).g, m.p.code)
    requires Ready(m, g, c, addrs, live, scopes, trace)
    ensures ExprDone(m, g, GenExpr(e, g), c, n, addrs, EvalExpr(e, m.p.world, scopes, trace))
    decreases e, 1
  {
    var Call(callee, args) := e;
    var a := GenArgs(args, g);
    ArgsPlain(args, g);
    ExtendsSame(a.g, GenExpr(e, g).g, m.p.code);
    n := SimArgs(m, args, g, c, addrs, live, scopes, trace);
    match EvalArgs(args, m.p.world, scopes, trace)
    case Values(vs, s1, t1) =>
      var c1 := Run(m, c, n);
      HoldsAllNums(c1, a.regs, vs);
      CallStep(m, a.g, callee.name, a.regs, vs, c1, addrs, s1, t1);
      Sequence(m, g, a.g, GenExpr(e, g), c, n, 1, addrs, EvalExpr(e, m.p.world, scopes, trace));
      n := n + 1;
    case _ =>
  }

  lemma {:induction false} SimArgs(m: Machine, args: seq<Expr>, g: Gen, c: Config, addrs: Addrs, live: set<string>,
                                   scopes: Scopes, trace: Trace) returns (n: nat)
    requires OkExprs(args, live) && Extends(GenArgs(args, g).g, m.p.code)
    requires Ready(m, g, c, addrs, live, scopes, trace)
    ensures ArgsDone(m, g, GenArgs(args, g), c, n, addrs, EvalArgs(args, m.p.world, scopes, trace))
    decreases args, 0
  {
    if args == [] {
      n := 0;
    } else {
      var a := GenExpr(args[0], g);
      var rest := GenArgs(args[1..], a.g);
      ExprPlain(args[0], g);
      ArgsPlain(args[1..], a.g);
      ExtendsSame(a.g, rest.g, m.p.code);
      n := SimExpr(m, args[0], g, c, addrs, live, scopes, trace);
      match EvalExpr(args[0], m.p.world, scopes, trace)
      case Value(v, s1, t1) =>
        var c1 := Run(m, c, n);
        ReadyAfter(m, g, a, c, n, addrs, live, scopes, trace, v, s1, t1);
        var k := SimArgs(m, args[1..], a.g, c1, addrs, live, s1, t1);
        ArgsSequence(m, g, a, rest, c, n, k, addrs, v, s1, t1, EvalArgs(args[1..], m.p.world, s1, t1));
        n := n + k;
      case _ =>
    }
  }

  lemma ArgsSequence(m: Machine, g: Gen, a: ExprGen, rest: ArgsGen, c: Config, n: nat, k: nat, addrs: Addrs,
                     v: int, s1: Scopes, t1: Trace, res: ArgsResult)
    requires c.Running? && ExprDone(m, g, a, c, n, addrs, Value(v, s1, t1)) && SameBlock(g, a.g) &&
      SameBlock(a.g, rest.g)
    requires ArgsDone(m, a.g, rest, Run(m, c, n), k, addrs, res)
    ensures ArgsDone(m, g, ArgsGen(rest.g, [a.reg] + rest.regs), c, n + k, addrs,
                     if res.Values? then Values([v] + res.values, res.scopes, res.trace) else res)
  {
    RunAdd(m, c, n, k);
    if res.Values? {
      KeepsTrans(c, Run(m, c, n), Run(m, c, n + k), g.regs, a.g.regs, addrs);
    }
  }
}
