// Generated statement code does what the statement does: it falls through, returns or
// traps with the same result and the same calls, and it runs on when the source does.
module StmtSimulation {
  import opened Common
  import opened Ast
  import opened Ir
  import opened Labels
  import opened Runtime
  import opened ScopeStack
  import opened Source
  import opened Codegen
  import opened CodegenFrame
  import opened IrMachine
  import opened Simulation
  import opened ExprSimulation
  import opened Fragment
  import opened CfgNames

  // After n steps the machine agrees with the source result. When the source runs out of
  // fuel the machine is still running after at least that many steps.
  ghost predicate Settled(m: Machine, g: Gen, h: Gen, c: Config, n: nat, addrs: Addrs, addrs': Addrs,
                          fuel: nat, res: StmtResult)
    requires c.Running?
  {
    var d := Run(m, c, n);
    match res
    case Normal(s, t) => At(h, d, t) && Synced(addrs', s, d.mem) && Keeps(c, d, g.regs, addrs)
    case Returned(v, t) => d == Halted(v, t)
    case Trapped(t) => d == IrMachine.Trapped(t)
    case OutOfFuel => d.Running? && n >= fuel
    case Bad => false
  }

  // The current block never ends in a terminator at a statement boundary.

  lemma {:induction false} StaysOpen(s: Stmt, g: Gen)
    requires !IsTerminated(g.code)
    ensures !IsTerminated(GenStmt(s, g).code)
    decreases s
  {
    match s
    case Block(ss) => StmtsStayOpen(ss, g);
    case ExprStmt(e) => ExprPlain(e, g);
    case VarDecl(_, x, init) =>
      if init.Some? {
        ExprPlain(init.value, Bind(Build(g, Alloca, [], x).g, x, g.regs + 1));
      }
    case _ =>
  }

  lemma {:induction false} StmtsStayOpen(ss: seq<Stmt>, g: Gen)
    requires !IsTerminated(g.code)
    ensures !IsTerminated(GenStmts(ss, g).code)
    decreases ss
  {
    if ss != [] {
      StaysOpen(ss[0], g);
      StmtsStayOpen(ss[1..], GenStmt(ss[0], g));
    }
  }

  // Jumps.

  // The block that starts at generation state k.
  ghost predicate Starts(k: Gen, name: string, code: seq<BasicBlock>) {
    k.code == [] && k.here == name && Extends(k, code)
  }

  lemma GotoStart(m: Machine, c: Config, k: Gen, name: string)
    requires c.Running? && UniqueNames(m.p.code) && Starts(k, name, m.p.code)
    ensures Goto(m.p, c, name) == Running(|k.done|, 0, c.regs, c.mem, c.trace)
  {
    FindUnique(m.p.code, |k.done|);
  }

  lemma BranchStep(m: Machine, g: Gen, name: string, c: Config, k: Gen)
    requires c.Running? && At(g, c, c.trace) && Extends(EmitBranch(g, name), m.p.code)
    requires UniqueNames(m.p.code) && Starts(k, name, m.p.code)
    ensures Run(m, c, 1) == Running(|k.done|, 0, c.regs, c.mem, c.trace)
  {
    StepAt(m, g, Instr(Branch, NO_REG, [], name), c);
    GotoStart(m, c, k, name);
  }

  lemma CondStep(m: Machine, g: Gen, r: RegID, t: string, f: string, v: int, c: Config, k: Gen)
    requires c.Running? && At(g, c, c.trace) && Extends(EmitCondBranch(g, r, t, f), m.p.code) && ',' !in t
    requires r in c.regs && c.regs[r] == Num(v)
    requires UniqueNames(m.p.code) && Starts(k, if v != 0 then t else f, m.p.code)
    ensures Run(m, c, 1) == Running(|k.done|, 0, c.regs, c.mem, c.trace)
  {
    var i := Instr(CondBranch, NO_REG, [Reg(r)], JoinTargets(t, f));
    StepAt(m, g, i, c);
    SplitJoin(t, f);
    assert NumIn(c, i.operands[0]) == Some(v);
    GotoStart(m, c, k, if v != 0 then t else f);
  }

  // Finished blocks of an intermediate state are blocks of the final code.

  lemma ExtendsGrows(g: Gen, h: Gen, code: seq<BasicBlock>)
    requires Grows(g, h) && Extends(h, code)
    ensures Extends(g, code)
  {
    ExtendsTrans(g, h, code);
  }

  lemma ExtendsStmt(s: Stmt, g: Gen, code: seq<BasicBlock>)
    requires Extends(GenStmt(s, g), code)
    ensures Extends(g, code)
  {
    StmtVisits(s, g);
    ExtendsGrows(g, GenStmt(s, g), code);
  }

  lemma ExtendsStart(h: Gen, name: string, code: seq<BasicBlock>)
    requires Extends(StartBlock(h, name), code)
    ensures Extends(h, code)
  {
    VisitsSameBlock(h, h);
    VisitsStart(h, h, name);
    ExtendsGrows(h, StartBlock(h, name), code);
  }

  lemma ExtendsClose(h: Gen, target: string, name: string, code: seq<BasicBlock>)
    requires Extends(Close(h, target, name), code)
    ensures Extends(BranchIfOpen(h, target), code) && Extends(h, code)
  {
    ExtendsStart(BranchIfOpen(h, target), name, code);
    ExtendsSame(h, BranchIfOpen(h, target), code);
  }

  // Composition.

  // Some steps, then a statement.
  lemma Prepend(m: Machine, g: Gen, k: Gen, h: Gen, c: Config, n: nat, j: nat, addrs: Addrs, addrs': Addrs,
                fuel: nat, res: StmtResult)
    requires c.Running? && g.regs <= k.regs
    requires Run(m, c, n).Running? && Keeps(c, Run(m, c, n), g.regs, addrs)
    requires Settled(m, k, h, Run(m, c, n), j, addrs, addrs', fuel, res)
    ensures Settled(m, g, h, c, n + j, addrs, addrs', fuel, res)
  {
    RunAdd(m, c, n, j);
    if res.Normal? {
      KeepsTrans(c, Run(m, c, n), Run(m, c, n + j), g.regs, k.regs, addrs);
    }
  }

  // The configuration reached by a jump.
  ghost predicate Jumped(c: Config, d: Config, k: Gen) {
    c.Running? && d == Running(|k.done|, 0, c.regs, c.mem, c.trace)
  }

  lemma JumpKeeps(c: Config, d: Config, k: Gen, regs: nat, addrs: Addrs)
    requires Jumped(c, d, k) && k.code == []
    ensures Keeps(c, d, regs, addrs) && At(k, d, c.trace)
  {
  }

  // A statement, then the branch that closes it.
  lemma FinishBranch(m: Machine, g: Gen, h: Gen, c: Config, n: nat, addrs: Addrs, fuel: nat, res: StmtResult,
               target: string, k: Gen) returns (j: nat)
    requires c.Running? && g.regs <= h.regs && Settled(m, g, h, c, n, addrs, addrs, fuel, res)
    requires !IsTerminated(h.code) && Extends(BranchIfOpen(h, target), m.p.code)
    requires UniqueNames(m.p.code) && Starts(k, target, m.p.code)
    ensures Settled(m, g, k, c, j, addrs, addrs, fuel, res)
    ensures res.Normal? ==> Run(m, c, n).Running? && Jumped(Run(m, c, n), Run(m, c, j), k)
  {
    j := n;
    if res.Normal? {
      var d := Run(m, c, n);
      BranchStep(m, h, target, d, k);
      RunAdd(m, c, n, 1);
      JumpKeeps(d, Run(m, d, 1), k, h.regs, addrs);
      KeepsTrans(c, d, Run(m, c, n + 1), g.regs, h.regs, addrs);
      j := n + 1;
    }
  }

  // A condition and the jump it decides.
  lemma Decide(m: Machine, g: Gen, x: ExprGen, taken: nat, t: string, f: string, c: Config, n: nat, addrs: Addrs,
               v: int, s: Scopes, tr: Trace, k: Gen)
    requires c.Running? && SameBlock(g, x.g) && ExprDone(m, g, x, c, n, addrs, Value(v, s, tr))
    requires Extends(EmitCondBranch(TakeLabels(x.g, taken), x.reg, t, f), m.p.code) && ',' !in t
    requires UniqueNames(m.p.code) && Starts(k, if v != 0 then t else f, m.p.code)
    ensures var d := Run(m, c, n + 1);
            At(k, d, tr) && Synced(addrs, s, d.mem) && Keeps(c, d, g.regs, addrs)
  {
    var d := Run(m, c, n);
    CondStep(m, TakeLabels(x.g, taken), x.reg, t, f, v, d, k);
    RunAdd(m, c, n, 1);
    JumpKeeps(d, Run(m, d, 1), k, x.g.regs, addrs);
    KeepsTrans(c, d, Run(m, c, n + 1), g.regs, x.g.regs, addrs);
  }

  // The links of live names at a later point whose slots agree on them.
  lemma Relink(g: Gen, k: Gen, c: Config, d: Config, addrs: Addrs, live: set<string>, fewer: set<string>)
    requires c.Running? && d.Running? && g.regs <= k.regs
    requires Linked(addrs, g.slots, c.regs, g.regs, live) && Keeps(c, d, g.regs, addrs)
    requires fewer <= live && forall x :: x in fewer && x in g.slots ==> x in k.slots && k.slots[x] == g.slots[x]
    ensures Linked(addrs, k.slots, d.regs, k.regs, fewer)
  {
    LinkedKeeps(addrs, g.slots, c, d, g.regs, k.regs, live);
    LinkedFewer(addrs, g.slots, d.regs, k.regs, live, k.slots, fewer);
  }

  // Simple statements.

  lemma SimExprStmt(m: Machine, e: Expr, g: Gen, c: Config, addrs: Addrs, live: set<string>, scopes: Scopes,
                    trace: Trace, fuel: nat) returns (n: nat)
    requires OkExpr(e, live) && Extends(GenExpr(e, g).g, m.p.code) && Ready(m, g, c, addrs, live, scopes, trace)
    ensures Settled(m, g, GenExpr(e, g).g, c, n, addrs, addrs, fuel, Discard(EvalExpr(e, m.p.world, scopes, trace)))
  {
    n := SimExpr(m, e, g, c, addrs, live, scopes, trace);
  }

  lemma ExecRet(m: Machine, g: Gen, r: RegID, v: int, c: Config)
    requires c.Running? && At(g, c, c.trace) && Extends(EmitRet(g, r), m.p.code)
    requires r != NO_REG ==> r in c.regs && c.regs[r] == Num(v)
    ensures Run(m, c, 1) == Halted(if r == NO_REG then None else Some(v), c.trace)
  {
    StepAt(m, g, Instr(Ret, NO_REG, if r == NO_REG then [] else [Reg(r)], ""), c);
  }

  lemma SimReturn(m: Machine, result: Option<Expr>, g: Gen, c: Config, addrs: Addrs, live: set<string>,
                  scopes: Scopes, trace: Trace, fuel: nat) returns (n: nat)
    requires result.Some? ==> OkExpr(result.value, live)
    requires Extends(GenReturn(result, g), m.p.code) && Ready(m, g, c, addrs, live, scopes, trace)
    ensures Settled(m, g, GenReturn(result, g), c, n, addrs, addrs, fuel,
                    EvalStmt(Return(result), m.p.world, scopes, trace, fuel))
  {
    match result
    case None =>
      var g1 := EmitRet(g, NO_REG);
      ExtendsStart(TakeLabels(g1, 1), MakeLabel(AfterRet, g1.labels), m.p.code);
      ExecRet(m, g, NO_REG, 0, c);
      n := 1;
    case Some(e) =>
      var a := GenExpr(e, g);
      var g1 := EmitRet(a.g, a.reg);
      ExtendsStart(TakeLabels(g1, 1), MakeLabel(AfterRet, g1.labels), m.p.code);
      ExprPlain(e, g);
      ExtendsSame(a.g, g1, m.p.code);
      n := SimExpr(m, e, g, c, addrs, live, scopes, trace);
      if EvalExpr(e, m.p.world, scopes, trace).Value? {
        ExecRet(m, a.g, a.reg, EvalExpr(e, m.p.world, scopes, trace).value, Run(m, c, n));
        RunAdd(m, c, n, 1);
        n := n + 1;
      }
  }

  // Declarations.

  lemma AllocaStep(m: Machine, g: Gen, tag: string, c: Config, addrs: Addrs, scopes: Scopes, trace: Trace)
    requires Extends(Build(g, Alloca, [], tag).g, m.p.code) && At(g, c, trace) && Synced(addrs, scopes, c.mem)
    ensures var d := Run(m, c, 1);
            && d == Running(c.block, c.pc + 1, c.regs[g.regs + 1 := Ptr(|c.mem|)], c.mem + [None], trace)
            && Synced(addrs, scopes, d.mem) && Keeps(c, d, g.regs, addrs) && !Owns(addrs, |c.mem|)
  {
    BuildStep(m, g, Alloca, [], tag, c);
    SyncedOther(addrs, scopes, c.mem, c.mem + [None]);
    OwnedBelow(addrs, scopes, c.mem);
  }

  lemma OwnedBelow(addrs: Addrs, scopes: Scopes, mem: seq<Option<int>>)
    requires Synced(addrs, scopes, mem)
    ensures forall a: nat :: Owns(addrs, a) ==> a < |mem|
  {
    forall a: nat | Owns(addrs, a) ensures a < |mem| {
      var i, x :| Lives(addrs, i, x, a);
      assert Holds(scopes, mem, i, x, a);
    }
  }

  // Storing a number in a cell that belongs to no variable.
  lemma HiddenStore(m: Machine, g: Gen, value: RegID, ptr: RegID, c: Config, v: int, a: nat, addrs: Addrs,
                    scopes: Scopes, trace: Trace)
    requires Extends(EmitStore(g, value, ptr), m.p.code) && At(g, c, trace) && Synced(addrs, scopes, c.mem)
    requires value in c.regs && c.regs[value] == Num(v)
    requires ptr in c.regs && c.regs[ptr] == Ptr(a) && a < |c.mem| && !Owns(addrs, a)
    ensures var d := Run(m, c, 1);
            && d == Running(c.block, c.pc + 1, c.regs, c.mem[a := Some(v)], trace)
            && Synced(addrs, scopes, d.mem)
  {
    StepAt(m, g, Instr(Store, NO_REG, [Reg(value), Reg(ptr)], ""), c);
    ExecStore(m, value, ptr, c, v, a);
    SyncedOther(addrs, scopes, c.mem, c.mem[a := Some(v)]);
  }

  // The initialiser sees the names live before the declaration, except the declared one.
  lemma BindReady(m: Machine, g: Gen, x: string, c: Config, addrs: Addrs, live: set<string>, scopes: Scopes,
                  trace: Trace)
    requires Ready(m, g, c, addrs, live, scopes, trace) && Extends(Build(g, Alloca, [], x).g, m.p.code)
    ensures var slot := Build(g, Alloca, [], x);
            var d := Run(m, c, 1);
            && Ready(m, Bind(slot.g, x, slot.reg), d, addrs, live - {x}, scopes, trace)
            && d.Running? && slot.reg in d.regs && d.regs[slot.reg] == Ptr(|c.mem|)
            && |d.mem| == |c.mem| + 1 && Keeps(c, d, g.regs, addrs) && !Owns(addrs, |c.mem|)
  {
    var slot := Build(g, Alloca, [], x);
    AllocaStep(m, g, x, c, addrs, scopes, trace);
    Relink(g, Bind(slot.g, x, slot.reg), c, Run(m, c, 1), addrs, live, live - {x});
  }

  lemma LinkedDeclare(addrs: Addrs, slots: map<string, RegID>, regs: map<RegID, Val>, k: nat, live: set<string>,
                      x: string, a: nat)
    requires addrs != [] && Linked(addrs, slots, regs, k, live - {x})
    requires x in slots && 1 <= slots[x] <= k && slots[x] in regs && regs[slots[x]] == Ptr(a)
    ensures Linked(Declare(addrs, x, a), slots, regs, k, live + {x})
  {
    forall y | y in live + {x}
      ensures y in slots && 1 <= slots[y] <= k && slots[y] in regs
      ensures Lookup(Declare(addrs, x, a), y).Some? && regs[slots[y]] == Ptr(Lookup(Declare(addrs, x, a), y).value)
    {
      LookupDeclare(addrs, x, a, y);
      if y != x {
        assert y in live - {x};
      }
    }
  }

  // The value of the initialiser goes into the new cell, which becomes the variable's.
  lemma InitStore(m: Machine, g: Gen, value: RegID, ptr: RegID, c: Config, v: int, a: nat, x: string, addrs: Addrs,
                  live: set<string>, scopes: Scopes, trace: Trace)
    requires Extends(EmitStore(g, value, ptr), m.p.code) && Ready(m, g, c, addrs, live - {x}, scopes, trace)
    requires value in c.regs && c.regs[value] == Num(v)
    requires x in g.slots && g.slots[x] == ptr && 1 <= ptr <= g.regs
    requires ptr in c.regs && c.regs[ptr] == Ptr(a) && a < |c.mem| && !Owns(addrs, a)
    ensures var d := Run(m, c, 1);
            && d.Running? && d.regs == c.regs && d.mem == c.mem[a := Some(v)]
            && Ready(m, EmitStore(g, value, ptr), d, Declare(addrs, x, a), live + {x}, Declare(scopes, x, v), trace)
  {
    HiddenStore(m, g, value, ptr, c, v, a, addrs, scopes, trace);
    SyncedDeclare(addrs, scopes, c.mem[a := Some(v)], x, a, v);
    LinkedDeclare(addrs, g.slots, c.regs, g.regs, live, x, a);
  }

  lemma SimVarDecl(m: Machine, x: string, e: Expr, g: Gen, c: Config, addrs: Addrs, live: set<string>,
                   scopes: Scopes, trace: Trace, fuel: nat) returns (n: nat)
    requires OkExpr(e, live - {x}) && Extends(GenVarDecl(x, Some(e), g), m.p.code)
    requires Ready(m, g, c, addrs, live, scopes, trace)
    ensures var res := EvalStmt(VarDecl(Let, x, Some(e)), m.p.world, scopes, trace, fuel);
            && Settled(m, g, GenVarDecl(x, Some(e), g), c, n, addrs, Declare(addrs, x, |c.mem|), fuel, res)
            && (res.Normal? ==>
                  && Run(m, c, n).Running?
                  && Linked(Declare(addrs, x, |c.mem|), GenVarDecl(x, Some(e), g).slots, Run(m, c, n).regs,
                            GenVarDecl(x, Some(e), g).regs, live + {x}))
  {
    var slot := Build(g, Alloca, [], x);
    var bound := Bind(slot.g, x, slot.reg);
    var a := GenExpr(e, bound);
    var h := EmitStore(a.g, a.reg, slot.reg);
    ExprPlain(e, bound);
    ExtendsSame(a.g, h, m.p.code);
    ExtendsSame(bound, a.g, m.p.code);
    BindReady(m, g, x, c, addrs, live, scopes, trace);
    var c1 := Run(m, c, 1);
    var k := SimExpr(m, e, bound, c1, addrs, live - {x}, scopes, trace);
    RunAdd(m, c, 1, k);
    n := 1 + k;
    var res := EvalExpr(e, m.p.world, scopes, trace);
    if res.Value? {
      var c2 := Run(m, c1, k);
      ReadyAfter(m, bound, a, c1, k, addrs, live - {x}, scopes, trace, res.value, res.scopes, res.trace);
      KeepsTrans(c, c1, c2, g.regs, bound.regs, addrs);
      InitStore(m, a.g, a.reg, slot.reg, c2, res.value, |c.mem|, x, addrs, live, res.scopes, res.trace);
      RunAdd(m, c, n, 1);
      n := n + 1;
    }
  }
}
