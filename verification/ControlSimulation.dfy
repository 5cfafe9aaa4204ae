// The simulation for structured statements.
module ControlSimulation {
  import opened Common
  import opened Ast
  import opened Ir
  import opened Labels
  import opened Runtime
  import opened ScopeStack
  import opened Source
  import opened Codegen
  import opened CodegenFrame
  import opened IrMachine
  import opened Simulation
  import opened ExprSimulation
  import opened StmtSimulation
  import opened Fragment
  import opened CfgNames
  import Int64

  // The variables' addresses after a statement that started with `size` cells in memory.
  ghost function AddrsAfter(s: Stmt, addrs: Addrs, size: nat): Addrs
    requires addrs != []
  {
    if s.VarDecl? then Declare(addrs, s.name, size) else addrs
  }

  // What a statement leaves behind when it falls through.
  ghost predicate Linked'(addrs: Addrs, h: Gen, d: Config, live: set<string>) {
    d.Running? && Linked(addrs, h.slots, d.regs, h.regs, live)
  }

  // Only the innermost scope's addresses can differ.
  ghost predicate SameOuter(addrs: Addrs, addrs': Addrs) {
    |addrs'| == |addrs| > 0 && addrs'[..|addrs| - 1] == addrs[..|addrs| - 1]
  }

  lemma {:induction false} SimStmt(m: Machine, s: Stmt, g: Gen, c: Config, addrs: Addrs, live: set<string>,
                                   scopes: Scopes, trace: Trace, fuel: nat) returns (n: nat)
    requires OkStmt(s, live) && Extends(GenStmt(s, g), m.p.code) && UniqueNames(m.p.code)
    requires Ready(m, g, c, addrs, live, scopes, trace)
    ensures var res := EvalStmt(s, m.p.world, scopes, trace, fuel);
            && Settled(m, g, GenStmt(s, g), c, n, addrs, AddrsAfter(s, addrs, |c.mem|), fuel, res)
            && (res.Normal? ==> Linked'(AddrsAfter(s, addrs, |c.mem|), GenStmt(s, g), Run(m, c, n), After(s, live)))
    decreases fuel, s, 4
  {
    if s.VarDecl? {
      n := SimVarDecl(m, s.name, s.init.value, g, c, addrs, live, scopes, trace, fuel);
      assert EvalStmt(s, m.p.world, scopes, trace, fuel)
          == EvalStmt(VarDecl(Let, s.name, Some(s.init.value)), m.p.world, scopes, trace, fuel);
    } else {
      n := SimPlain(m, s, g, c, addrs, live, scopes, trace, fuel);
      if EvalStmt(s, m.p.world, scopes, trace, fuel).Normal? {
        StmtVisits(s, g);
        Relink(g, GenStmt(s, g), c, Run(m, c, n), addrs, live, After(s, live));
      }
    }
  }

  // Statements that declare nothing in their own scope.
  lemma {:induction false} SimPlain(m: Machine, s: Stmt, g: Gen, c: Config, addrs: Addrs, live: set<string>,
                                    scopes: Scopes, trace: Trace, fuel: nat) returns (n: nat)
    requires OkBranch(s, live) && Extends(GenStmt(s, g), m.p.code) && UniqueNames(m.p.code)
    requires Ready(m, g, c, addrs, live, scopes, trace)
    ensures Settled(m, g, GenStmt(s, g), c, n, addrs, addrs, fuel, EvalStmt(s, m.p.world, scopes, trace, fuel))
    decreases fuel, s, 3
  {
    match s
    case Block(ss) => n := SimBlock(m, s, g, c, addrs, live, scopes, trace, fuel);
    case ExprStmt(e) => n := SimExprStmt(m, e, g, c, addrs, live, scopes, trace, fuel);
    case Return(result) => n := SimReturn(m, result, g, c, addrs, live, scopes, trace, fuel);
    case If(_, _, _) => n := SimIf(m, s, g, c, addrs, live, scopes, trace, fuel);
    case While(cond, body) =>
      n := SimLoop(m, cond, body, WHILE_LABELS, g, c, addrs, live, scopes, trace, fuel);
    case Vloop(cond, body) =>
      if cond.IntLit? {
        n := SimVloop(m, s, g, c, addrs, live, scopes, trace, fuel);
      } else {
        n := SimLoop(m, cond, body, VLOOP_LABELS, g, c, addrs, live, scopes, trace, fuel);
      }
    case Match(_, _) => n := SimMatch(m, s, g, c, addrs, live, scopes, trace, fuel);
  }

  // Blocks.

  lemma {:induction false} SimBlock(m: Machine, s: Stmt, g: Gen, c: Config, addrs: Addrs, live: set<string>,
                                    scopes: Scopes, trace: Trace, fuel: nat) returns (n: nat)
    requires s.Block? && OkStmt(s, live) && Extends(GenStmt(s, g), m.p.code) && UniqueNames(m.p.code)
    requires Ready(m, g, c, addrs, live, scopes, trace)
    ensures Settled(m, g, GenStmt(s, g), c, n, addrs, addrs, fuel, EvalStmt(s, m.p.world, scopes, trace, fuel))
    decreases fuel, s, 1
  {
    PushReady(m, g, c, addrs, live, scopes, trace);
    var inner;
    n, inner := SimStmts(m, s.stmts, g, c, addrs + [map[]], live, scopes + [map[]], trace, fuel);
    var res := EvalStmts(s.stmts, m.p.world, scopes + [map[]], trace, fuel);
    if res.Normal? {
      PopSettled(m, g, GenStmt(s, g), c, n, addrs, inner, scopes, fuel, res);
    }
  }

  lemma PushReady(m: Machine, g: Gen, c: Config, addrs: Addrs, live: set<string>, scopes: Scopes, trace: Trace)
    requires Ready(m, g, c, addrs, live, scopes, trace)
    ensures Ready(m, g, c, addrs + [map[]], live, scopes + [map[]], trace)
    ensures forall a :: Owns(addrs + [map[]], a) ==> Owns(addrs, a)
  {
    SyncedPush(addrs, scopes, c.mem);
    forall x | x in live ensures Lookup(addrs + [map[]], x) == Lookup(addrs, x) {
      LookupPush(addrs, x);
    }
  }

  lemma PopSettled(m: Machine, g: Gen, h: Gen, c: Config, n: nat, addrs: Addrs, inner: Addrs, scopes: Scopes,
                   fuel: nat, res: StmtResult)
    requires c.Running? && res.Normal? && addrs != []
    requires forall a :: Owns(addrs + [map[]], a) ==> Owns(addrs, a)
    requires Settled(m, g, h, c, n, addrs + [map[]], inner, fuel, res) && SameOuter(addrs + [map[]], inner)
    ensures Settled(m, g, h, c, n, addrs, addrs, fuel, LeaveScope(res))
  {
    assert (addrs + [map[]])[..|addrs|] == addrs;
    SyncedPop(addrs, inner, res.scopes, Run(m, c, n).mem);
  }

  lemma OwnsDeclare(addrs: Addrs, x: string, a: nat, b: nat)
    requires addrs != [] && Owns(Declare(addrs, x, a), b)
    ensures b == a || Owns(addrs, b)
  {
    var i, y :| Lives(Declare(addrs, x, a), i, y, b);
    if b != a {
      assert Lives(addrs, i, y, b);
    }
  }

  // Keeping what a longer list of variables leaves alone, and what came before it.
  lemma KeepsDeclared(c: Config, d: Config, e: Config, k: nat, l: nat, s: Stmt, addrs: Addrs)
    requires c.Running? && d.Running? && e.Running? && k <= l && addrs != []
    requires Keeps(c, d, k, addrs) && Keeps(d, e, l, AddrsAfter(s, addrs, |c.mem|))
    ensures Keeps(c, e, k, addrs)
  {
    var addrs' := AddrsAfter(s, addrs, |c.mem|);
    forall a | 0 <= a < |c.mem| && !Owns(addrs, a) ensures e.mem[a] == c.mem[a] {
      if s.VarDecl? && Owns(addrs', a) {
        OwnsDeclare(addrs, s.name, |c.mem|, a);
      }
      assert !Owns(addrs', a);
    }
  }

  lemma {:induction false} SimStmts(m: Machine, ss: seq<Stmt>, g: Gen, c: Config, addrs: Addrs, live: set<string>,
                                    scopes: Scopes, trace: Trace, fuel: nat) returns (n: nat, addrs': Addrs)
    requires OkStmts(ss, live) && Extends(GenStmts(ss, g), m.p.code) && UniqueNames(m.p.code)
    requires Ready(m, g, c, addrs, live, scopes, trace)
    ensures SameOuter(addrs, addrs')
    ensures Settled(m, g, GenStmts(ss, g), c, n, addrs, addrs', fuel, EvalStmts(ss, m.p.world, scopes, trace, fuel))
    decreases fuel, ss, 0
  {
    addrs' := addrs;
    if ss == [] {
      n := 0;
    } else {
      var h := GenStmt(ss[0], g);
      StmtVisits(ss[0], g);
      StmtsVisit(ss[1..], h);
      ExtendsGrows(h, GenStmts(ss, g), m.p.code);
      n := SimStmt(m, ss[0], g, c, addrs, live, scopes, trace, fuel);
      var res := EvalStmt(ss[0], m.p.world, scopes, trace, fuel);
      if res.Normal? {
        var addrs1 := AddrsAfter(ss[0], addrs, |c.mem|);
        var c1 := Run(m, c, n);
        var j;
        j, addrs' := SimStmts(m, ss[1..], h, c1, addrs1, After(ss[0], live), res.scopes, res.trace, fuel);
        RunAdd(m, c, n, j);
        if EvalStmts(ss, m.p.world, scopes, trace, fuel).Normal? {
          KeepsDeclared(c, c1, Run(m, c1, j), g.regs, h.regs, ss[0], addrs);
        }
        n := n + j;
      }
    }
  }

  // Branches.

  // The body of a branch from the start of its block, then the jump that closes it.
  lemma {:induction false} RunBranch(m: Machine, t: Stmt, at: Gen, target: string, k: Gen, c: Config, addrs: Addrs,
                                     live: set<string>, scopes: Scopes, trace: Trace, fuel: nat) returns (n: nat)
    requires OkBranch(t, live) && at.code == [] && Extends(BranchIfOpen(GenStmt(t, at), target), m.p.code)
    requires UniqueNames(m.p.code) && Starts(k, target, m.p.code)
    requires Ready(m, at, c, addrs, live, scopes, trace)
    ensures var res := EvalStmt(t, m.p.world, scopes, trace, fuel);
            && Settled(m, at, k, c, n, addrs, addrs, fuel, res)
            && (res.Normal? ==> Run(m, c, n).Running?)
    decreases fuel, t, 4
  {
    var h := GenStmt(t, at);
    ExtendsSame(h, BranchIfOpen(h, target), m.p.code);
    StaysOpen(t, at);
    StmtVisits(t, at);
    n := SimPlain(m, t, at, c, addrs, live, scopes, trace, fuel);
    n := FinishBranch(m, at, h, c, n, addrs, fuel, EvalStmt(t, m.p.world, scopes, trace, fuel), target, k);
  }

  // From the start of a condition to the block the decision leads to.
  lemma EnterBranch(m: Machine, g: Gen, x: ExprGen, taken: nat, t: string, f: string, c: Config, n: nat, addrs: Addrs,
                    live: set<string>, scopes: Scopes, trace: Trace, v: int, s: Scopes, tr: Trace,
                    k: Gen, declared: set<string>)
    requires Ready(m, g, c, addrs, live, scopes, trace) && SameBlock(g, x.g)
    requires ExprDone(m, g, x, c, n, addrs, Value(v, s, tr))
    requires Extends(EmitCondBranch(TakeLabels(x.g, taken), x.reg, t, f), m.p.code) && ',' !in t
    requires UniqueNames(m.p.code) && Starts(k, if v != 0 then t else f, m.p.code) && Visits(g, k, declared)
    ensures Ready(m, k, Run(m, c, n + 1), addrs, live - declared, s, tr)
    ensures Keeps(c, Run(m, c, n + 1), g.regs, addrs)
  {
    Decide(m, g, x, taken, t, f, c, n, addrs, v, s, tr, k);
    Relink(g, k, c, Run(m, c, n + 1), addrs, live, live - declared);
  }

  // A decided condition, then the branch it leads to.
  lemma {:induction false} TakeBranch(m: Machine, g: Gen, x: ExprGen, taken: nat, tl: string, fl: string, c: Config,
                                      n: nat, addrs: Addrs, live: set<string>, scopes: Scopes, trace: Trace,
                                      v: int, s: Scopes, tr: Trace, t: Stmt, at: Gen, declared: set<string>,
                                      target: string, k: Gen, fuel: nat) returns (j: nat)
    requires Ready(m, g, c, addrs, live, scopes, trace) && SameBlock(g, x.g)
    requires ExprDone(m, g, x, c, n, addrs, Value(v, s, tr))
    requires Extends(EmitCondBranch(TakeLabels(x.g, taken), x.reg, tl, fl), m.p.code) && ',' !in tl
    requires UniqueNames(m.p.code) && Starts(at, if v != 0 then tl else fl, m.p.code) && Visits(g, at, declared)
    requires OkBranch(t, live - declared) && Extends(BranchIfOpen(GenStmt(t, at), target), m.p.code)
    requires Starts(k, target, m.p.code)
    ensures Settled(m, g, k, c, j, addrs, addrs, fuel, EvalStmt(t, m.p.world, s, tr, fuel))
    decreases fuel, t, 6
  {
    EnterBranch(m, g, x, taken, tl, fl, c, n, addrs, live, scopes, trace, v, s, tr, at, declared);
    j := FromBranch(m, g, t, at, target, k, c, n + 1, addrs, live - declared, s, tr, fuel);
  }

  // From the start of a branch.
  lemma {:induction false} FromBranch(m: Machine, g: Gen, t: Stmt, at: Gen, target: string, k: Gen, c: Config, n: nat,
                                      addrs: Addrs, live: set<string>, scopes: Scopes, trace: Trace, fuel: nat)
    returns (j: nat)
    requires c.Running? && UniqueNames(m.p.code) && g.regs <= at.regs && at.code == []
    requires Ready(m, at, Run(m, c, n), addrs, live, scopes, trace) && OkBranch(t, live)
    requires Keeps(c, Run(m, c, n), g.regs, addrs)
    requires Extends(BranchIfOpen(GenStmt(t, at), target), m.p.code) && Starts(k, target, m.p.code)
    ensures Settled(m, g, k, c, j, addrs, addrs, fuel, EvalStmt(t, m.p.world, scopes, trace, fuel))
    decreases fuel, t, 5
  {
    j := RunBranch(m, t, at, target, k, Run(m, c, n), addrs, live, scopes, trace, fuel);
    Prepend(m, g, at, k, c, n, j, addrs, addrs, fuel, EvalStmt(t, m.p.world, scopes, trace, fuel));
    j := n + j;
  }

  // The condition code of an if is part of the final code.
  lemma ThenHeadExtends(cond: Expr, hasElse: bool, g: Gen, code: seq<BasicBlock>)
    requires Extends(ThenHead(cond, hasElse, g), code)
    ensures var x := GenExpr(cond, g);
            var n := x.g.labels;
            var other := MakeLabel(if hasElse then Else else Merge, n + 1);
            && Extends(EmitCondBranch(TakeLabels(x.g, if hasElse then 3 else 2), x.reg, MakeLabel(Then, n), other),
                       code)
            && Extends(x.g, code)
  {
    var x := GenExpr(cond, g);
    var n := x.g.labels;
    var other := MakeLabel(if hasElse then Else else Merge, n + 1);
    var test := EmitCondBranch(TakeLabels(x.g, if hasElse then 3 else 2), x.reg, MakeLabel(Then, n), other);
    ExtendsStart(test, MakeLabel(Then, n), code);
    ExtendsSame(x.g, test, code);
  }

  lemma {:induction false} SimIf(m: Machine, s: Stmt, g: Gen, c: Config, addrs: Addrs, live: set<string>,
                                 scopes: Scopes, trace: Trace, fuel: nat) returns (n: nat)
    requires s.If? && OkStmt(s, live) && Extends(GenStmt(s, g), m.p.code) && UniqueNames(m.p.code)
    requires Ready(m, g, c, addrs, live, scopes, trace)
    ensures Settled(m, g, GenStmt(s, g), c, n, addrs, addrs, fuel, EvalStmt(s, m.p.world, scopes, trace, fuel))
    decreases fuel, s, 2
  {
    if s.elseBranch.None? {
      n := SimIfThen(m, s, g, c, addrs, live, scopes, trace, fuel);
    } else {
      n := SimIfElse(m, s, g, c, addrs, live, scopes, trace, fuel);
    }
  }

  lemma IfThenShape(s: Stmt, g: Gen, x: ExprGen, thenName: string, merge: string, at: Gen, k: Gen,
                    code: seq<BasicBlock>)
    requires s.If? && s.elseBranch.None? && Extends(GenStmt(s, g), code) && x == GenExpr(s.cond, g)
    requires thenName == MakeLabel(Then, x.g.labels) && merge == MakeLabel(Merge, x.g.labels + 1)
    requires at == ThenHead(s.cond, false, g) && k == Close(GenStmt(s.thenBranch, at), merge, merge)
    ensures SameBlock(g, x.g) && Extends(x.g, code) && ',' !in thenName
    ensures Extends(EmitCondBranch(TakeLabels(x.g, 2), x.reg, thenName, merge), code)
    ensures Starts(at, thenName, code) && Visits(g, at, {})
    ensures Extends(BranchIfOpen(GenStmt(s.thenBranch, at), merge), code)
    ensures k == GenStmt(s, g) && Starts(k, merge, code) && Visits(g, k, Binds(s))
  {
    IfIs(s, g, x.g.labels, merge);
    ExtendsClose(GenStmt(s.thenBranch, at), merge, merge, code);
    ExtendsStmt(s.thenBranch, at, code);
    ThenHeadExtends(s.cond, false, g, code);
    LabelHasNoComma(Then, x.g.labels);
    ExprPlain(s.cond, g);
    VisitsThenHead(s.cond, false, g);
    StmtVisits(s, g);
  }

  lemma {:induction false} SimIfThen(m: Machine, s: Stmt, g: Gen, c: Config, addrs: Addrs, live: set<string>,
                                     scopes: Scopes, trace: Trace, fuel: nat) returns (n: nat)
    requires s.If? && s.elseBranch.None?
    requires OkStmt(s, live) && Extends(GenStmt(s, g), m.p.code) && UniqueNames(m.p.code)
    requires Ready(m, g, c, addrs, live, scopes, trace)
    ensures Settled(m, g, GenStmt(s, g), c, n, addrs, addrs, fuel, EvalStmt(s, m.p.world, scopes, trace, fuel))
    decreases fuel, s, 1
  {
    var x, at := GenExpr(s.cond, g), ThenHead(s.cond, false, g);
    var thenName, merge := MakeLabel(Then, x.g.labels), MakeLabel(Merge, x.g.labels + 1);
    var k := Close(GenStmt(s.thenBranch, at), merge, merge);
    IfThenShape(s, g, x, thenName, merge, at, k, m.p.code);
    n := SimExpr(m, s.cond, g, c, addrs, live, scopes, trace);
    var res := EvalExpr(s.cond, m.p.world, scopes, trace);
    if res.Value? {
      n := DecideThen(m, s, g, x, thenName, merge, at, k, c, n, addrs, live, scopes, trace,
                      res.value, res.scopes, res.trace, fuel);
    }
  }

  // The condition is known.
  lemma {:induction false} DecideThen(m: Machine, s: Stmt, g: Gen, x: ExprGen, thenName: string, merge: string,
                                      at: Gen, k: Gen,
                                      c: Config, i: nat, addrs: Addrs, live: set<string>, scopes: Scopes, trace: Trace,
                                      v: int, s1: Scopes, t1: Trace, fuel: nat) returns (n: nat)
    requires s.If? && s.elseBranch.None? && OkBranch(s.thenBranch, live) && UniqueNames(m.p.code)
    requires Ready(m, g, c, addrs, live, scopes, trace) && SameBlock(g, x.g)
    requires ExprDone(m, g, x, c, i, addrs, Value(v, s1, t1))
    requires Extends(EmitCondBranch(TakeLabels(x.g, 2), x.reg, thenName, merge), m.p.code) && ',' !in thenName
    requires Starts(at, thenName, m.p.code) && Visits(g, at, {})
    requires Extends(BranchIfOpen(GenStmt(s.thenBranch, at), merge), m.p.code)
    requires Starts(k, merge, m.p.code) && Visits(g, k, Binds(s))
    ensures Settled(m, g, k, c, n, addrs, addrs, fuel,
                    if v != 0 then EvalStmt(s.thenBranch, m.p.world, s1, t1, fuel) else Normal(s1, t1))
    decreases fuel, s, 0
  {
    if v != 0 {
      assert live - {} == live;
      n := TakeBranch(m, g, x, 2, thenName, merge, c, i, addrs, live, scopes, trace, v, s1, t1, s.thenBranch, at, {},
                      merge, k, fuel);
    } else {
      EnterBranch(m, g, x, 2, thenName, merge, c, i, addrs, live, scopes, trace, v, s1, t1, k, Binds(s));
      n := i + 1;
    }
  }

  lemma BranchesShape(g: Gen, at: Gen, t: Stmt, f: Stmt, elseName: string, merge: string, code: seq<BasicBlock>)
    requires Visits(g, at, {})
    requires Extends(Close(GenStmt(f, Close(GenStmt(t, at), merge, elseName)), merge, merge), code)
    ensures var atElse := Close(GenStmt(t, at), merge, elseName);
            && Extends(at, code) && Extends(BranchIfOpen(GenStmt(t, at), merge), code)
            && Starts(atElse, elseName, code) && Visits(g, atElse, Binds(t))
            && Extends(BranchIfOpen(GenStmt(f, atElse), merge), code)
  {
    var h := GenStmt(t, at);
    var atElse := Close(h, merge, elseName);
    ExtendsClose(GenStmt(f, atElse), merge, merge, code);
    ExtendsStmt(f, atElse, code);
    ExtendsClose(h, merge, elseName, code);
    ExtendsStmt(t, at, code);
    StmtVisits(t, at);
    VisitsBranch(g, at, h, merge, elseName, {}, Binds(t));
    assert {} + Binds(t) == Binds(t);
  }

  lemma IfElseShape(s: Stmt, f: Stmt, g: Gen, x: ExprGen, thenName: string, other: string, merge: string, at: Gen,
                    atElse: Gen, k: Gen, code: seq<BasicBlock>)
    requires s.If? && s.elseBranch == Some(f) && Extends(GenStmt(s, g), code) && x == GenExpr(s.cond, g)
    requires thenName == MakeLabel(Then, x.g.labels) && other == MakeLabel(Else, x.g.labels + 1)
    requires merge == MakeLabel(Merge, x.g.labels + 2) && at == ThenHead(s.cond, true, g)
    requires atElse == Close(GenStmt(s.thenBranch, at), merge, other) && k == Close(GenStmt(f, atElse), merge, merge)
    ensures SameBlock(g, x.g) && Extends(x.g, code) && ',' !in thenName
    ensures Extends(EmitCondBranch(TakeLabels(x.g, 3), x.reg, thenName, other), code)
    ensures Starts(at, thenName, code) && Visits(g, at, {})
    ensures Extends(BranchIfOpen(GenStmt(s.thenBranch, at), merge), code)
    ensures Starts(atElse, other, code) && Visits(g, atElse, Binds(s.thenBranch))
    ensures Extends(BranchIfOpen(GenStmt(f, atElse), merge), code) && k == GenStmt(s, g) && Starts(k, merge, code)
  {
    IfElseIs(s, f, g, x.g.labels, other, merge);
    VisitsThenHead(s.cond, true, g);
    BranchesShape(g, at, s.thenBranch, f, other, merge, code);
    ThenHeadExtends(s.cond, true, g, code);
    LabelHasNoComma(Then, x.g.labels);
    ExprPlain(s.cond, g);
  }

  lemma {:induction false} SimIfElse(m: Machine, s: Stmt, g: Gen, c: Config, addrs: Addrs, live: set<string>,
                                     scopes: Scopes, trace: Trace, fuel: nat) returns (n: nat)
    requires s.If? && s.elseBranch.Some?
    requires OkStmt(s, live) && Extends(GenStmt(s, g), m.p.code) && UniqueNames(m.p.code)
    requires Ready(m, g, c, addrs, live, scopes, trace)
    ensures Settled(m, g, GenStmt(s, g), c, n, addrs, addrs, fuel, EvalStmt(s, m.p.world, scopes, trace, fuel))
    decreases fuel, s, 1
  {
    var f, x, at := s.elseBranch.value, GenExpr(s.cond, g), ThenHead(s.cond, true, g);
    var thenName, other := MakeLabel(Then, x.g.labels), MakeLabel(Else, x.g.labels + 1);
    var merge := MakeLabel(Merge, x.g.labels + 2);
    var atElse := Close(GenStmt(s.thenBranch, at), merge, other);
    var k := Close(GenStmt(f, atElse), merge, merge);
    IfElseShape(s, f, g, x, thenName, other, merge, at, atElse, k, m.p.code);
    n := SimExpr(m, s.cond, g, c, addrs, live, scopes, trace);
    var res := EvalExpr(s.cond, m.p.world, scopes, trace);
    if res.Value? {
      n := DecideElse(m, s, g, x, thenName, other, merge, at, atElse, k, c, n, addrs, live, scopes, trace,
                      res.value, res.scopes, res.trace, fuel);
    }
  }

  lemma {:induction false} DecideElse(m: Machine, s: Stmt, g: Gen, x: ExprGen, thenName: string, elseName: string,
                                      merge: string,
                                      at: Gen, atElse: Gen, k: Gen, c: Config, i: nat, addrs: Addrs, live: set<string>,
                                      scopes: Scopes, trace: Trace, v: int, s1: Scopes, t1: Trace, fuel: nat)
                                        returns (n: nat)
    requires s.If? && s.elseBranch.Some? && OkBranch(s.thenBranch, live) &&
      OkBranch(s.elseBranch.value, live - Binds(s.thenBranch))
    requires UniqueNames(m.p.code) && Ready(m, g, c, addrs, live, scopes, trace) && SameBlock(g, x.g)
    requires ExprDone(m, g, x, c, i, addrs, Value(v, s1, t1))
    requires Extends(EmitCondBranch(TakeLabels(x.g, 3), x.reg, thenName, elseName), m.p.code) && ',' !in thenName
    requires Starts(at, thenName, m.p.code) && Visits(g, at, {})
    requires Extends(BranchIfOpen(GenStmt(s.thenBranch, at), merge), m.p.code)
    requires Starts(atElse, elseName, m.p.code) && Visits(g, atElse, Binds(s.thenBranch))
    requires Extends(BranchIfOpen(GenStmt(s.elseBranch.value, atElse), merge), m.p.code)
    requires Starts(k, merge, m.p.code)
    ensures Settled(m, g, k, c, n, addrs, addrs, fuel,
                    EvalStmt(if v != 0 then s.thenBranch else s.elseBranch.value, m.p.world, s1, t1, fuel))
    decreases fuel, s, 0, 0
  {
    if v != 0 {
      assert live - {} == live;
      n := TakeBranch(m, g, x, 3, thenName, elseName, c, i, addrs, live, scopes, trace, v, s1, t1, s.thenBranch, at,
                      {}, merge, k, fuel);
    } else {
      n := TakeBranch(m, g, x, 3, thenName, elseName, c, i, addrs, live, scopes, trace, v, s1, t1,
                      s.elseBranch.value, atElse, Binds(s.thenBranch), merge, k, fuel);
    }
  }

  // Condition loops.

  // A loop in the final code.
  datatype CondLoop = CondLoop(test: Expr, body: Stmt, cond: string, bodyName: string, exit: string,
                               atCond: Gen, atBody: Gen, atExit: Gen)
  {
    ghost function Test(): ExprGen {
      GenExpr(test, atCond)
    }

    ghost predicate In(code: seq<BasicBlock>) {
      && ',' !in bodyName && SameBlock(atCond, Test().g) && Extends(Test().g, code)
      && Extends(EmitCondBranch(Test().g, Test().reg, bodyName, exit), code)
      && Starts(atCond, cond, code) && Starts(atBody, bodyName, code) && Starts(atExit, exit, code)
      && Visits(atCond, atBody, {})
      && Extends(BranchIfOpen(GenStmt(body, atBody), cond), code)
    }
  }

  lemma LoopShape(test: Expr, body: Stmt, cond: string, bodyName: string, exit: string, g: Gen, code: seq<BasicBlock>)
    returns (l: CondLoop)
    requires ',' !in bodyName &&
      Extends(Close(GenStmt(body, LoopHead(test, cond, bodyName, exit, g)), cond, exit), code)
    ensures l.In(code) && l.test == test && l.body == body && l.cond == cond
    ensures l.atCond == StartBlock(EmitBranch(TakeLabels(g, 3), cond), cond)
    ensures l.atExit == Close(GenStmt(body, LoopHead(test, cond, bodyName, exit, g)), cond, exit)
    ensures Extends(EmitBranch(TakeLabels(g, 3), cond), code)
  {
    var atCond := StartBlock(EmitBranch(TakeLabels(g, 3), cond), cond);
    var x := GenExpr(test, atCond);
    var jump := EmitCondBranch(x.g, x.reg, bodyName, exit);
    var atBody := StartBlock(jump, bodyName);
    var h := GenStmt(body, atBody);
    l := CondLoop(test, body, cond, bodyName, exit, atCond, atBody, Close(h, cond, exit));
    ExtendsClose(h, cond, exit, code);
    ExtendsStmt(body, atBody, code);
    ExtendsStart(jump, bodyName, code);
    ExprPlain(test, atCond);
    ExtendsSame(x.g, jump, code);
    ExtendsSame(atCond, jump, code);
    ExtendsStart(EmitBranch(TakeLabels(g, 3), cond), cond, code);
    VisitsSameBlock(atCond, jump);
    VisitsStart(atCond, jump, bodyName);
  }

  lemma {:induction false} SimLoop(m: Machine, cond: Expr, body: Stmt, ls: LoopLabels, g: Gen, c: Config, addrs: Addrs,
                                   live: set<string>, scopes: Scopes, trace: Trace, fuel: nat) returns (n: nat)
    requires OkExpr(cond, live) && OkBranch(body, live)
    requires Extends(GenLoop(cond, body, ls, g), m.p.code) && UniqueNames(m.p.code)
    requires Ready(m, g, c, addrs, live, scopes, trace)
    ensures Settled(m, g, GenLoop(cond, body, ls, g), c, n, addrs, addrs, fuel,
                    EvalLoop(cond, body, m.p.world, scopes, trace, fuel))
    decreases fuel, body, 8
  {
    LabelHasNoComma(ls.body, g.labels + 1);
    var l := LoopShape(cond, body, MakeLabel(ls.cond, g.labels), MakeLabel(ls.body, g.labels + 1),
                       MakeLabel(ls.exit, g.labels + 2), g, m.p.code);
    n := EnterLoop(m, l, g, TakeLabels(g, 3), c, addrs, live, scopes, trace, fuel);
  }

  lemma {:induction false} EnterLoop(m: Machine, l: CondLoop, g: Gen, before: Gen, c: Config, addrs: Addrs,
                                     live: set<string>,
                                     scopes: Scopes, trace: Trace, fuel: nat) returns (n: nat)
    requires l.In(m.p.code) && UniqueNames(m.p.code) && OkExpr(l.test, live) && OkBranch(l.body, live)
    requires before == TakeLabels(g, 3) && l.atCond == StartBlock(EmitBranch(before, l.cond), l.cond)
    requires Extends(EmitBranch(before, l.cond), m.p.code) && Ready(m, g, c, addrs, live, scopes, trace)
    ensures Settled(m, g, l.atExit, c, n, addrs, addrs, fuel, EvalLoop(l.test, l.body, m.p.world, scopes, trace, fuel))
    decreases fuel, l.body, 7
  {
    BranchStep(m, before, l.cond, c, l.atCond);
    var d := Run(m, c, 1);
    JumpKeeps(c, d, l.atCond, g.regs, addrs);
    Relink(g, l.atCond, c, d, addrs, live, live);
    var j := LoopFrom(m, l, d, addrs, live, scopes, trace, fuel);
    Prepend(m, g, l.atCond, l.atExit, c, 1, j, addrs, addrs, fuel,
            EvalLoop(l.test, l.body, m.p.world, scopes, trace, fuel));
    n := 1 + j;
  }

  // From the condition block on, by induction on the fuel.
  lemma {:induction false} LoopFrom(m: Machine, l: CondLoop, c: Config, addrs: Addrs, live: set<string>,
                                    scopes: Scopes, trace: Trace, fuel: nat) returns (n: nat)
    requires l.In(m.p.code) && UniqueNames(m.p.code) && OkExpr(l.test, live) && OkBranch(l.body, live)
    requires Ready(m, l.atCond, c, addrs, live, scopes, trace)
    ensures Settled(m, l.atCond, l.atExit, c, n, addrs, addrs, fuel,
                    EvalLoop(l.test, l.body, m.p.world, scopes, trace, fuel))
    decreases fuel, l.body, 6
  {
    if fuel == 0 {
      n := 0;
    } else {
      n := SimExpr(m, l.test, l.atCond, c, addrs, live, scopes, trace);
      var res := EvalExpr(l.test, m.p.world, scopes, trace);
      if res.Value? {
        var Value(v, s1, t1) := res;
        if v == 0 {
          Decide(m, l.atCond, l.Test(), 0, l.bodyName, l.exit, c, n, addrs, v, s1, t1, l.atExit);
          n := n + 1;
        } else {
          n := LoopTurns(m, l, c, n, addrs, live, scopes, trace, v, s1, t1, fuel);
        }
      }
    }
  }

  // A turn of the body and the turns after it.
  ghost function AfterTurn(test: Expr, body: Stmt, w: World, s1: Scopes, t1: Trace, fuel: nat): StmtResult
    requires fuel > 0
  {
    match EvalStmt(body, w, s1, t1, fuel)
    case Normal(s2, t2) => EvalLoop(test, body, w, s2, t2, fuel - 1)
    case stop => stop
  }

  lemma {:induction false} LoopTurns(m: Machine, l: CondLoop, c: Config, i: nat, addrs: Addrs, live: set<string>,
                                     scopes: Scopes, trace: Trace, v: int, s1: Scopes, t1: Trace, fuel: nat)
                                       returns (n: nat)
    requires l.In(m.p.code) && UniqueNames(m.p.code) && OkExpr(l.test, live) && OkBranch(l.body, live) && v != 0 &&
      fuel > 0
    requires Ready(m, l.atCond, c, addrs, live, scopes, trace) &&
      ExprDone(m, l.atCond, l.Test(), c, i, addrs, Value(v, s1, t1))
    ensures Settled(m, l.atCond, l.atExit, c, n, addrs, addrs, fuel, AfterTurn(l.test, l.body, m.p.world, s1, t1, fuel))
    decreases fuel, l.body, 5
  {
    n := LoopTurn(m, l, c, i, addrs, live, scopes, trace, v, s1, t1, fuel);
    var turn := EvalStmt(l.body, m.p.world, s1, t1, fuel);
    if turn.Normal? {
      var d := Run(m, c, n);
      LinkedKeeps(addrs, l.atCond.slots, c, d, l.atCond.regs, l.atCond.regs, live);
      var j := LoopFrom(m, l, d, addrs, live, turn.scopes, turn.trace, fuel - 1);
      LoopAgain(m, l.atCond, l.atExit, c, n, j, addrs, fuel, EvalLoop(l.test, l.body, m.p.world, turn.scopes,
                                                                      turn.trace, fuel - 1));
      n := n + j;
    }
  }

  // The condition held: one turn of the body, back to the condition block.
  lemma {:induction false} LoopTurn(m: Machine, l: CondLoop, c: Config, i: nat, addrs: Addrs, live: set<string>,
                                    scopes: Scopes, trace: Trace, v: int, s1: Scopes, t1: Trace, fuel: nat)
                                      returns (n: nat)
    requires l.In(m.p.code) && UniqueNames(m.p.code) && OkBranch(l.body, live) && v != 0
    requires Ready(m, l.atCond, c, addrs, live, scopes, trace) &&
      ExprDone(m, l.atCond, l.Test(), c, i, addrs, Value(v, s1, t1))
    ensures Settled(m, l.atCond, l.atCond, c, n, addrs, addrs, fuel, EvalStmt(l.body, m.p.world, s1, t1, fuel)) &&
      n >= 1
    decreases fuel, l.body, 5, 0
  {
    assert live - {} == live;
    EnterBranch(m, l.atCond, l.Test(), 0, l.bodyName, l.exit, c, i, addrs, live, scopes, trace, v, s1, t1, l.atBody,
                {});
    var j := RunBranch(m, l.body, l.atBody, l.cond, l.atCond, Run(m, c, i + 1), addrs, live, s1, t1, fuel);
    Prepend(m, l.atCond, l.atBody, l.atCond, c, i + 1, j, addrs, addrs, fuel,
            EvalStmt(l.body, m.p.world, s1, t1, fuel));
    n := i + 1 + j;
  }

  lemma LoopAgain(m: Machine, atCond: Gen, k: Gen, c: Config, n: nat, j: nat, addrs: Addrs, fuel: nat, res: StmtResult)
    requires c.Running? && fuel > 0 && n >= 1
    requires Run(m, c, n).Running? && Keeps(c, Run(m, c, n), atCond.regs, addrs)
    requires Settled(m, atCond, k, Run(m, c, n), j, addrs, addrs, fuel - 1, res)
    ensures Settled(m, atCond, k, c, n + j, addrs, addrs, fuel, res)
  {
    Prepend(m, atCond, atCond, k, c, n, j, addrs, addrs, fuel - 1, res);
  }

  // Counted loops. The hidden counter has a cell that belongs to no variable.

  // As Keeps, except that the cell at a may change too.
  ghost predicate KeepsBut(c: Config, d: Config, k: nat, addrs: Addrs, a: nat)
    requires c.Running? && d.Running?
  {
    && (forall r :: r in c.regs && r <= k ==> r in d.regs && d.regs[r] == c.regs[r])
    && |c.mem| <= |d.mem|
    && (forall b :: 0 <= b < |c.mem| && !Owns(addrs, b) && b != a ==> d.mem[b] == c.mem[b])
  }

  lemma KeepsButTrans(c: Config, d: Config, e: Config, k: nat, l: nat, addrs: Addrs, a: nat)
    requires c.Running? && d.Running? && e.Running? && k <= l
    requires KeepsBut(c, d, k, addrs, a) && KeepsBut(d, e, l, addrs, a)
    ensures KeepsBut(c, e, k, addrs, a)
  {
  }

  // The counter at address a, in register slot, has reached i.
  ghost predicate Counts(c: Config, slot: RegID, a: nat, i: int, addrs: Addrs) {
    c.Running? && slot in c.regs && c.regs[slot] == Ptr(a) && a < |c.mem| && c.mem[a] == Some(i) && !Owns(addrs, a)
  }

  lemma LoadStepHidden(m: Machine, g: Gen, slot: RegID, c: Config, a: nat, i: int, addrs: Addrs)
    requires Counts(c, slot, a, i, addrs) && At(g, c, c.trace) && Extends(Build(g, Load, [Reg(slot)], "").g, m.p.code)
    ensures Run(m, c, 1) == Define(c, g.regs + 1, Num(i))
  {
    BuildStep(m, g, Load, [Reg(slot)], "", c);
  }

  lemma CopyStep(m: Machine, g: Gen, v: int, c: Config)
    requires c.Running? && At(g, c, c.trace) && Extends(Build(g, Copy, [IntImm(v)], "").g, m.p.code)
    ensures Run(m, c, 1) == Define(c, g.regs + 1, Num(v))
  {
    BuildStep(m, g, Copy, [IntImm(v)], "", c);
  }

  lemma OpStep(m: Machine, g: Gen, op: Opcode, l: RegID, r: RegID, x: int, y: int, v: int, c: Config)
    requires c.Running? && At(g, c, c.trace) && Extends(Build(g, op, [Reg(l), Reg(r)], "").g, m.p.code)
    requires op.CmpLt? || op.Add?
    requires l in c.regs && c.regs[l] == Num(x) && r in c.regs && c.regs[r] == Num(y)
    requires IrMachine.BinaryOp(op, x, y) == Some(Some(v))
    ensures Run(m, c, 1) == Define(c, g.regs + 1, Num(v))
  {
    BuildStep(m, g, op, [Reg(l), Reg(r)], "", c);
  }

  // Load the counter, take a constant and combine the two.
  lemma CounterOp(m: Machine, g: Gen, slot: RegID, k: int, op: Opcode, v: int, c: Config, a: nat, i: int,
                  addrs: Addrs, scopes: Scopes, trace: Trace)
    requires op.CmpLt? || op.Add?
    requires IrMachine.BinaryOp(op, i, k) == Some(Some(v))
    requires Counts(c, slot, a, i, addrs) && slot <= g.regs && At(g, c, trace) && Synced(addrs, scopes, c.mem)
    requires var cur := Build(g, Load, [Reg(slot)], "");
             var lim := Build(cur.g, Copy, [IntImm(k)], "");
             Extends(Build(lim.g, op, [Reg(cur.reg), Reg(lim.reg)], "").g, m.p.code)
    ensures var cur := Build(g, Load, [Reg(slot)], "");
            var lim := Build(cur.g, Copy, [IntImm(k)], "");
            var z := Build(lim.g, op, [Reg(cur.reg), Reg(lim.reg)], "");
            ExprDone(m, g, z, c, 3, addrs, Value(v, scopes, trace)) && Run(m, c, 3).mem == c.mem
  {
    var cur := Build(g, Load, [Reg(slot)], "");
    var lim := Build(cur.g, Copy, [IntImm(k)], "");
    var z := Build(lim.g, op, [Reg(cur.reg), Reg(lim.reg)], "");
    ExtendsSame(lim.g, z.g, m.p.code);
    ExtendsSame(cur.g, lim.g, m.p.code);
    LoadStepHidden(m, g, slot, c, a, i, addrs);
    var c1 := Run(m, c, 1);
    CopyStep(m, cur.g, k, c1);
    var c2 := Run(m, c1, 1);
    OpStep(m, lim.g, op, cur.reg, lim.reg, i, k, v, c2);
    RunAdd(m, c, 1, 1);
    RunAdd(m, c, 2, 1);
  }

  // counter = counter + 1 and back to the test.
  lemma CountUp(m: Machine, g: Gen, slot: RegID, cond: string, exit: string, c: Config, a: nat, i: int, addrs: Addrs,
                scopes: Scopes, trace: Trace, k: Gen)
    requires !IsTerminated(g.code) && Extends(CounterStep(slot, cond, exit, g), m.p.code)
    requires Counts(c, slot, a, i, addrs) && slot <= g.regs && At(g, c, trace) && Synced(addrs, scopes, c.mem)
    requires Int64.InRange(i + 1)
    requires UniqueNames(m.p.code) && Starts(k, cond, m.p.code)
    ensures var d := Run(m, c, 5);
            && At(k, d, trace) && Synced(addrs, scopes, d.mem)
            && KeepsBut(c, d, g.regs, addrs, a) && Counts(d, slot, a, i + 1, addrs)
  {
    var cur := Build(g, Load, [Reg(slot)], "");
    var one := Build(cur.g, Copy, [IntImm(1)], "");
    var inc := Build(one.g, Opcode.Add, [Reg(cur.reg), Reg(one.reg)], "");
    var stored := EmitStore(inc.g, inc.reg, slot);
    ExtendsStart(EmitBranch(stored, cond), exit, m.p.code);
    ExtendsSame(stored, EmitBranch(stored, cond), m.p.code);
    ExtendsSame(inc.g, stored, m.p.code);
    CounterOp(m, g, slot, 1, Opcode.Add, i + 1, c, a, i, addrs, scopes, trace);
    var c3 := Run(m, c, 3);
    HiddenStore(m, inc.g, inc.reg, slot, c3, i + 1, a, addrs, scopes, trace);
    var c4 := Run(m, c3, 1);
    BranchStep(m, stored, cond, c4, k);
    RunAdd(m, c, 3, 1);
    RunAdd(m, c, 4, 1);
  }

  // The result of a counted loop, whose counter may have moved.
  ghost predicate Counted(m: Machine, g: Gen, h: Gen, c: Config, n: nat, addrs: Addrs, a: nat, fuel: nat,
                          res: StmtResult)
    requires c.Running?
  {
    var d := Run(m, c, n);
    match res
    case Normal(s, t) => At(h, d, t) && Synced(addrs, s, d.mem) && KeepsBut(c, d, g.regs, addrs, a)
    case Returned(v, t) => d == Halted(v, t)
    case Trapped(t) => d == IrMachine.Trapped(t)
    case OutOfFuel => d.Running? && n >= fuel
    case Bad => false
  }

  lemma PrependCounted(m: Machine, g: Gen, h: Gen, c: Config, n: nat, j: nat, addrs: Addrs, a: nat, fuel: nat,
                       res: StmtResult)
    requires c.Running? && Run(m, c, n).Running? && KeepsBut(c, Run(m, c, n), g.regs, addrs, a)
    requires Counted(m, g, h, Run(m, c, n), j, addrs, a, fuel, res)
    ensures Counted(m, g, h, c, n + j, addrs, a, fuel, res)
  {
    RunAdd(m, c, n, j);
    if res.Normal? {
      KeepsButTrans(c, Run(m, c, n), Run(m, c, n + j), g.regs, g.regs, addrs, a);
    }
  }

  // A counted loop in the final code: its counter register and limit, its three block
  // names, and the generation states at the start of those blocks.
  datatype CountedLoop = CountedLoop(body: Stmt, limit: int, slot: RegID, cond: string, bodyName: string, exit: string,
                                     atCond: Gen, atBody: Gen, atExit: Gen)
  {
    ghost function Test(): ExprGen {
      var cur := Build(atCond, Load, [Reg(slot)], "");
      var lim := Build(cur.g, Copy, [IntImm(limit)], "");
      Build(lim.g, CmpLt, [Reg(cur.reg), Reg(lim.reg)], "")
    }

    ghost predicate In(code: seq<BasicBlock>) {
      && slot <= atCond.regs && Int64.InRange(limit) && ',' !in bodyName
      && Extends(EmitCondBranch(Test().g, Test().reg, bodyName, exit), code)
      && Starts(atCond, cond, code) && Starts(atBody, bodyName, code) && Starts(atExit, exit, code)
      && Visits(atCond, atBody, {})
      && Extends(CounterStep(slot, cond, exit, GenStmt(body, atBody)), code)
    }
  }

  // The test at counter value i leads into the body when i is below the limit, and else to the exit.
  lemma CountTest(m: Machine, l: CountedLoop, c: Config, a: nat, i: int,
                  addrs: Addrs, live: set<string>, scopes: Scopes, trace: Trace)
    requires l.In(m.p.code) && UniqueNames(m.p.code)
    requires Ready(m, l.atCond, c, addrs, live, scopes, trace) && Counts(c, l.slot, a, i, addrs)
    ensures var d := Run(m, c, 4);
            && d.Running? && Keeps(c, d, l.atCond.regs, addrs) && Counts(d, l.slot, a, i, addrs)
            && (if i < l.limit then Ready(m, l.atBody, d, addrs, live, scopes, trace)
                else At(l.atExit, d, trace) && Synced(addrs, scopes, d.mem))
  {
    var v := Int64.Truth(i < l.limit);
    var at := if i < l.limit then l.atBody else l.atExit;
    ExtendsSame(l.Test().g, EmitCondBranch(l.Test().g, l.Test().reg, l.bodyName, l.exit), m.p.code);
    CounterOp(m, l.atCond, l.slot, l.limit, CmpLt, v, c, a, i, addrs, scopes, trace);
    Decide(m, l.atCond, l.Test(), 0, l.bodyName, l.exit, c, 3, addrs, v, scopes, trace, at);
    if i < l.limit {
      Relink(l.atCond, at, c, Run(m, c, 4), addrs, live, live);
    }
  }

  // One turn of the body from the test, and the counter moves on.
  lemma {:induction false} CountedTurn(m: Machine, l: CountedLoop, c: Config, a: nat, i: int, addrs: Addrs,
                                       live: set<string>,
                                       scopes: Scopes, trace: Trace, fuel: nat) returns (n: nat)
    requires l.In(m.p.code) && UniqueNames(m.p.code) && OkBranch(l.body, live) && 0 <= i < l.limit
    requires Ready(m, l.atCond, c, addrs, live, scopes, trace) && Counts(c, l.slot, a, i, addrs)
    ensures var res := EvalStmt(l.body, m.p.world, scopes, trace, fuel);
            && Counted(m, l.atCond, l.atCond, c, n, addrs, a, fuel, res)
            && (res.Normal? ==> Counts(Run(m, c, n), l.slot, a, i + 1, addrs))
    decreases fuel, l.body, 5
  {
    CountTest(m, l, c, a, i, addrs, live, scopes, trace);
    var c1 := Run(m, c, 4);
    ExtendsCounterStep(l.body, l.slot, l.cond, l.exit, l.atBody, m.p.code);
    var j := SimPlain(m, l.body, l.atBody, c1, addrs, live, scopes, trace, fuel);
    n := TurnEnd(m, l, GenStmt(l.body, l.atBody), c, c1, j, a, i, addrs, fuel,
                 EvalStmt(l.body, m.p.world, scopes, trace, fuel));
  }

  lemma ExtendsCounterStep(body: Stmt, slot: RegID, cond: string, exit: string, atBody: Gen, code: seq<BasicBlock>)
    requires Extends(CounterStep(slot, cond, exit, GenStmt(body, atBody)), code) && atBody.code == []
    ensures var h := GenStmt(body, atBody);
            Extends(h, code) && !IsTerminated(h.code) && atBody.regs <= h.regs
  {
    var h := GenStmt(body, atBody);
    VisitsCounterStep(slot, cond, exit, h);
    ExtendsGrows(h, CounterStep(slot, cond, exit, h), code);
    StmtVisits(body, atBody);
    StaysOpen(body, atBody);
  }

  // After the body of a turn, the counter steps.
  lemma TurnEnd(m: Machine, l: CountedLoop, h: Gen, c: Config, c1: Config, j: nat, a: nat, i: int, addrs: Addrs,
                fuel: nat, res: StmtResult) returns (n: nat)
    requires l.In(m.p.code) && UniqueNames(m.p.code) && 0 <= i < l.limit
    requires Extends(CounterStep(l.slot, l.cond, l.exit, h), m.p.code) && !IsTerminated(h.code) &&
      l.atBody.regs <= h.regs
    requires c.Running? && c1 == Run(m, c, 4) && c1.Running? && Keeps(c, c1, l.atCond.regs, addrs)
    requires Counts(c1, l.slot, a, i, addrs) && Settled(m, l.atBody, h, c1, j, addrs, addrs, fuel, res)
    ensures Counted(m, l.atCond, l.atCond, c, n, addrs, a, fuel, res)
    ensures res.Normal? ==> Counts(Run(m, c, n), l.slot, a, i + 1, addrs)
  {
    RunAdd(m, c, 4, j);
    n := 4 + j;
    if res.Normal? {
      var c2 := Run(m, c1, j);
      CountUp(m, h, l.slot, l.cond, l.exit, c2, a, i, addrs, res.scopes, res.trace, l.atCond);
      RunAdd(m, c, n, 5);
      TurnKeeps(c, c1, c2, Run(m, c2, 5), l.atCond.regs, l.atBody.regs, h.regs, addrs, a);
      n := n + 5;
    }
  }

  lemma TurnKeeps(c: Config, d: Config, e: Config, f: Config, k: nat, l: nat, h: nat, addrs: Addrs, a: nat)
    requires c.Running? && d.Running? && e.Running? && f.Running? && k <= l <= h
    requires Keeps(c, d, k, addrs) && Keeps(d, e, l, addrs) && KeepsBut(e, f, h, addrs, a)
    ensures KeepsBut(c, f, k, addrs, a)
  {
    KeepsTrans(c, d, e, k, l, addrs);
  }

  // From the test on, by induction on the turns left.
  lemma {:induction false} CountFrom(m: Machine, l: CountedLoop, c: Config, a: nat, i: int, addrs: Addrs,
                                     live: set<string>,
                                     scopes: Scopes, trace: Trace, fuel: nat) returns (n: nat)
    requires l.In(m.p.code) && UniqueNames(m.p.code) && OkBranch(l.body, live) && 0 <= i
    requires Ready(m, l.atCond, c, addrs, live, scopes, trace) && Counts(c, l.slot, a, i, addrs)
    ensures Counted(m, l.atCond, l.atExit, c, n, addrs, a, fuel,
                    Repeat(l.body, Times(l.limit - i), m.p.world, scopes, trace, fuel))
    decreases fuel, l.body, 6 + Times(l.limit - i)
  {
    if i >= l.limit {
      CountTest(m, l, c, a, i, addrs, live, scopes, trace);
      n := 4;
    } else {
      n := CountedTurn(m, l, c, a, i, addrs, live, scopes, trace, fuel);
      var res := EvalStmt(l.body, m.p.world, scopes, trace, fuel);
      if res.Normal? {
        var d := Run(m, c, n);
        RelinkCounted(l.atCond, c, d, addrs, live, a);
        var j := CountFrom(m, l, d, a, i + 1, addrs, live, res.scopes, res.trace, fuel);
        PrependCounted(m, l.atCond, l.atExit, c, n, j, addrs, a, fuel,
                       Repeat(l.body, Times(l.limit - (i + 1)), m.p.world, res.scopes, res.trace, fuel));
        n := n + j;
      }
    }
  }

  lemma RelinkCounted(g: Gen, c: Config, d: Config, addrs: Addrs, live: set<string>, a: nat)
    requires c.Running? && d.Running? && KeepsBut(c, d, g.regs, addrs, a)
    requires Linked(addrs, g.slots, c.regs, g.regs, live)
    ensures Linked(addrs, g.slots, d.regs, g.regs, live)
  {
  }

  // The slot of the counter, holding 0.
  lemma InitCounter(m: Machine, g: Gen, c: Config, addrs: Addrs, live: set<string>, scopes: Scopes, trace: Trace)
    requires Extends(CounterInit(g).g, m.p.code) && Ready(m, g, c, addrs, live, scopes, trace)
    ensures var d := Run(m, c, 3);
            && Ready(m, CounterInit(g).g, d, addrs, live, scopes, trace)
            && Keeps(c, d, g.regs, addrs) && Counts(d, CounterInit(g).reg, |c.mem|, 0, addrs)
  {
    var g0 := TakeLabels(g, 4);
    var slot := Build(g0, Alloca, [], MakeLabel(VloopCounter, g.labels));
    var zero := Build(slot.g, Copy, [IntImm(0)], "");
    var h := EmitStore(zero.g, zero.reg, slot.reg);
    ExtendsSame(zero.g, h, m.p.code);
    ExtendsSame(slot.g, zero.g, m.p.code);
    AllocaStep(m, g0, MakeLabel(VloopCounter, g.labels), c, addrs, scopes, trace);
    var c1 := Run(m, c, 1);
    CopyStep(m, slot.g, 0, c1);
    var c2 := Run(m, c1, 1);
    HiddenStore(m, zero.g, zero.reg, slot.reg, c2, 0, |c.mem|, addrs, scopes, trace);
    RunAdd(m, c, 1, 1);
    RunAdd(m, c, 2, 1);
    Relink(g, h, c, Run(m, c, 3), addrs, live, live);
  }

  lemma CountedShape(s: Stmt, g: Gen, code: seq<BasicBlock>) returns (l: CountedLoop)
    requires s.Vloop? && s.cond.IntLit? && Int64.InRange(s.cond.value) && Extends(GenStmt(s, g), code)
    ensures l.body == s.body && l.limit == s.cond.value && l.slot == CounterInit(g).reg && l.In(code)
    ensures l.atCond == StartBlock(EmitBranch(CounterInit(g).g, l.cond), l.cond) && l.atExit == GenStmt(s, g)
    ensures Extends(EmitBranch(CounterInit(g).g, l.cond), code) && Extends(CounterInit(g).g, code)
  {
    var init := CounterInit(g);
    var n := g.labels;
    LabelHasNoComma(VloopBody, n + 2);
    l := CountedNamed(s, g, init, MakeLabel(VloopCond, n + 1), MakeLabel(VloopBody, n + 2),
                      MakeLabel(VloopExit, n + 3), code);
  }

  lemma CountedNamed(s: Stmt, g: Gen, init: ExprGen, cond: string, bodyName: string, exit: string,
                     code: seq<BasicBlock>)
    returns (l: CountedLoop)
    requires s.Vloop? && s.cond.IntLit? && Int64.InRange(s.cond.value) && ',' !in bodyName && init.reg <= init.g.regs
    requires Extends(CounterStep(init.reg, cond, exit, GenStmt(s.body,
        CounterHead(s.cond.value, init.reg, cond, bodyName, exit, init.g))), code)
    ensures l.body == s.body && l.limit == s.cond.value && l.slot == init.reg && l.cond == cond && l.In(code)
    ensures l.atCond == StartBlock(EmitBranch(init.g, cond), cond)
    ensures l.atExit == CounterStep(init.reg, cond, exit, GenStmt(s.body,
        CounterHead(s.cond.value, init.reg, cond, bodyName, exit, init.g)))
    ensures Extends(EmitBranch(init.g, cond), code) && Extends(init.g, code)
  {
    var atCond := StartBlock(EmitBranch(init.g, cond), cond);
    var atBody := CounterHead(s.cond.value, init.reg, cond, bodyName, exit, init.g);
    var h := GenStmt(s.body, atBody);
    l := CountedLoop(s.body, s.cond.value, init.reg, cond, bodyName, exit, atCond, atBody,
                     CounterStep(init.reg, cond, exit, h));
    var test := EmitCondBranch(l.Test().g, l.Test().reg, bodyName, exit);
    ExtendsCounterStep(s.body, init.reg, cond, exit, atBody, code);
    ExtendsStmt(s.body, atBody, code);
    ExtendsStart(test, bodyName, code);
    ExtendsSame(atCond, test, code);
    ExtendsStart(EmitBranch(init.g, cond), cond, code);
    ExtendsSame(init.g, EmitBranch(init.g, cond), code);
    VisitsSameBlock(atCond, test);
    VisitsStart(atCond, test, bodyName);
  }

  lemma {:induction false} SimVloop(m: Machine, s: Stmt, g: Gen, c: Config, addrs: Addrs, live: set<string>,
                                    scopes: Scopes, trace: Trace, fuel: nat) returns (n: nat)
    requires s.Vloop? && s.cond.IntLit? && OkStmt(s, live) && Extends(GenStmt(s, g), m.p.code) && UniqueNames(m.p.code)
    requires Ready(m, g, c, addrs, live, scopes, trace)
    ensures Settled(m, g, GenStmt(s, g), c, n, addrs, addrs, fuel, EvalStmt(s, m.p.world, scopes, trace, fuel))
    decreases fuel, s, 1
  {
    var l := CountedShape(s, g, m.p.code);
    InitCounter(m, g, c, addrs, live, scopes, trace);
    n := FromCounter(m, l, g, CounterInit(g).g, c, addrs, live, scopes, trace, fuel);
  }

  // From the initialised counter into the loop.
  lemma {:induction false} FromCounter(m: Machine, l: CountedLoop, g: Gen, h: Gen, c: Config, addrs: Addrs,
                                       live: set<string>,
                                       scopes: Scopes, trace: Trace, fuel: nat) returns (n: nat)
    requires l.In(m.p.code) && UniqueNames(m.p.code) && OkBranch(l.body, live)
    requires g.regs <= h.regs && Extends(EmitBranch(h, l.cond), m.p.code) &&
      l.atCond == StartBlock(EmitBranch(h, l.cond), l.cond)
    requires c.Running? && Ready(m, h, Run(m, c, 3), addrs, live, scopes, trace)
    requires Keeps(c, Run(m, c, 3), g.regs, addrs) && Counts(Run(m, c, 3), l.slot, |c.mem|, 0, addrs)
    ensures Settled(m, g, l.atExit, c, n, addrs, addrs, fuel,
                    Repeat(l.body, Times(l.limit), m.p.world, scopes, trace, fuel))
    decreases fuel, l.body, 7 + Times(l.limit)
  {
    var c1 := Run(m, c, 3);
    BranchStep(m, h, l.cond, c1, l.atCond);
    var c2 := Run(m, c1, 1);
    RunAdd(m, c, 3, 1);
    var j := CountFrom(m, l, c2, |c.mem|, 0, addrs, live, scopes, trace, fuel);
    RunAdd(m, c, 4, j);
    n := 4 + j;
  }

  // Match.

  // The comparison of one arm, after its pattern.
  lemma {:induction false} SimPattern(m: Machine, p: Expr, subject: RegID, v: int, g: Gen, c: Config, addrs: Addrs,
                                      live: set<string>, scopes: Scopes, trace: Trace) returns (n: nat)
    requires OkExpr(p, live) && Ready(m, g, c, addrs, live, scopes, trace)
    requires subject <= g.regs && subject in c.regs && c.regs[subject] == Num(v)
    requires var x := GenExpr(p, g);
             Extends(Build(x.g, CmpEq, [Reg(subject), Reg(x.reg)], "").g, m.p.code)
    ensures var x := GenExpr(p, g);
            ExprDone(m, g, Build(x.g, CmpEq, [Reg(subject), Reg(x.reg)], ""), c, n, addrs,
                     AfterSecond(Eq, v, EvalExpr(p, m.p.world, scopes, trace)))
  {
    var x := GenExpr(p, g);
    ExprPlain(p, g);
    var z := Build(x.g, CmpEq, [Reg(subject), Reg(x.reg)], "");
    ExtendsSame(x.g, z.g, m.p.code);
    n := SimExpr(m, p, g, c, addrs, live, scopes, trace);
    var res := EvalExpr(p, m.p.world, scopes, trace);
    if res.Value? {
      BinaryStep(m, x.g, Eq, subject, x.reg, Run(m, c, n), addrs, res.scopes, res.trace, v, res.value);
      Sequence(m, g, x.g, z, c, n, 1, addrs, AfterSecond(Eq, v, res));
      n := n + 1;
    }
  }

  // The code of one arm.
  ghost predicate ArmCode(arm: MatchArm, subject: RegID, bodyName: string, nextName: string, exit: string, g: Gen,
                          code: seq<BasicBlock>)
  {
    var at := ArmHead(arm.pattern, subject, bodyName, nextName, g);
    && Starts(at, bodyName, code) && Visits(g, at, {})
    && Extends(BranchIfOpen(GenStmt(arm.body, at), exit), code)
    && (arm.pattern.None? ==> Extends(EmitBranch(g, bodyName), code))
    && (arm.pattern.Some? ==>
          var x := GenExpr(arm.pattern.value, g);
          var cmp := Build(x.g, CmpEq, [Reg(subject), Reg(x.reg)], "");
          SameBlock(g, cmp.g) && Extends(EmitCondBranch(cmp.g, cmp.reg, bodyName, nextName), code) &&
            Extends(cmp.g, code))
  }

  lemma ArmShape(arm: MatchArm, subject: RegID, bodyName: string, nextName: string, exit: string, g: Gen,
                 code: seq<BasicBlock>)
    requires Extends(BranchIfOpen(GenStmt(arm.body, ArmHead(arm.pattern, subject, bodyName, nextName, g)), exit), code)
    ensures ArmCode(arm, subject, bodyName, nextName, exit, g, code)
  {
    var at := ArmHead(arm.pattern, subject, bodyName, nextName, g);
    var h := GenStmt(arm.body, at);
    ExtendsSame(h, BranchIfOpen(h, exit), code);
    ExtendsStmt(arm.body, at, code);
    VisitsArmHead(arm.pattern, subject, bodyName, nextName, g);
    match arm.pattern
    case None => ExtendsStart(EmitBranch(g, bodyName), bodyName, code);
    case Some(p) =>
      var x := GenExpr(p, g);
      var cmp := Build(x.g, CmpEq, [Reg(subject), Reg(x.reg)], "");
      ExprPlain(p, g);
      ExtendsStart(EmitCondBranch(cmp.g, cmp.reg, bodyName, nextName), bodyName, code);
      ExtendsSame(cmp.g, EmitCondBranch(cmp.g, cmp.reg, bodyName, nextName), code);
  }

  // A wildcard arm.
  lemma {:induction false} SimWildcard(m: Machine, arm: MatchArm, subject: RegID, bodyName: string, nextName: string,
                                       exit: string,
                                       k: Gen, g: Gen, c: Config, addrs: Addrs, live: set<string>,
                                       scopes: Scopes, trace: Trace, fuel: nat) returns (n: nat)
    requires arm.pattern.None? && OkBranch(arm.body, live) &&
      ArmCode(arm, subject, bodyName, nextName, exit, g, m.p.code)
    requires UniqueNames(m.p.code) && Starts(k, exit, m.p.code)
    requires Ready(m, g, c, addrs, live, scopes, trace)
    ensures Settled(m, g, k, c, n, addrs, addrs, fuel, EvalStmt(arm.body, m.p.world, scopes, trace, fuel))
    decreases fuel, arm.body, 5
  {
    var at := ArmHead(arm.pattern, subject, bodyName, nextName, g);
    BranchStep(m, g, bodyName, c, at);
    var d := Run(m, c, 1);
    JumpKeeps(c, d, at, g.regs, addrs);
    Relink(g, at, c, d, addrs, live, live);
    var j := RunBranch(m, arm.body, at, exit, k, d, addrs, live, scopes, trace, fuel);
    Prepend(m, g, at, k, c, 1, j, addrs, addrs, fuel, EvalStmt(arm.body, m.p.world, scopes, trace, fuel));
    n := 1 + j;
  }

  // The first arm in the final code; `g0` is the state after its labels are taken.
  lemma ArmsShape(arms: seq<MatchArm>, subject: RegID, exit: string, g: Gen, code: seq<BasicBlock>)
    returns (bodyName: string, nextName: string, g0: Gen, g2: Gen)
    requires arms != [] && Extends(Close(GenArms(arms, subject, exit, g), exit, exit), code)
    ensures ',' !in bodyName && g0.(labels := g.labels) == g &&
      ArmCode(arms[0], subject, bodyName, nextName, exit, g0, code)
    ensures arms[0].pattern.Some? ==>
      && GenArms(arms, subject, exit, g) == GenArms(arms[1..], subject, exit, g2)
      && Starts(g2, nextName, code) && Visits(g0, g2, Binds(arms[0].body))
  {
    var MatchArm(pattern, body) := arms[0];
    var last := |arms| == 1;
    bodyName := MakeLabel(ArmBody, g.labels);
    nextName := if last then exit else MakeLabel(ArmNext, g.labels + 1);
    g0 := TakeLabels(g, if last then 1 else 2);
    LabelHasNoComma(ArmBody, g.labels);
    var h := GenStmt(body, ArmHead(pattern, subject, bodyName, nextName, g0));
    g2 := Close(h, exit, nextName);
    if pattern.None? {
      ExtendsClose(BranchIfOpen(h, exit), exit, exit, code);
    } else {
      ArmsVisit(arms[1..], subject, exit, g2);
      ExtendsClose(GenArms(arms[1..], subject, exit, g2), exit, exit, code);
      ExtendsGrows(g2, GenArms(arms[1..], subject, exit, g2), code);
      ExtendsClose(h, exit, nextName, code);
      VisitsNextArm(arms[0], subject, bodyName, nextName, exit, g0);
    }
    ArmShape(arms[0], subject, bodyName, nextName, exit, g0, code);
  }

  lemma {:induction false} SimArms(m: Machine, arms: seq<MatchArm>, subject: RegID, v: int, exit: string, k: Gen,
                                   g: Gen,
                                   c: Config, addrs: Addrs, live: set<string>,
                                   scopes: Scopes, trace: Trace, fuel: nat) returns (n: nat)
    requires OkArms(arms, live) && UniqueNames(m.p.code)
    requires k == Close(GenArms(arms, subject, exit, g), exit, exit) && Extends(k, m.p.code)
    requires Ready(m, g, c, addrs, live, scopes, trace)
    requires subject <= g.regs && subject in c.regs && c.regs[subject] == Num(v)
    ensures Settled(m, g, k, c, n, addrs, addrs, fuel, EvalArms(arms, v, m.p.world, scopes, trace, fuel))
    decreases fuel, arms, 1
  {
    assert (arms decreases to arms[0]) && (arms[0] decreases to arms[0].body);
    var bodyName, nextName, g0, g2 := ArmsShape(arms, subject, exit, g, m.p.code);
    if arms[0].pattern.None? {
      n := SimWildcard(m, arms[0], subject, bodyName, nextName, exit, k, g0, c, addrs, live, scopes, trace, fuel);
    } else {
      n := SimArm(m, arms, subject, v, bodyName, nextName, exit, k, g0, g2, c, addrs, live, scopes, trace, fuel);
    }
  }

  lemma VisitsNextArm(arm: MatchArm, subject: RegID, bodyName: string, nextName: string, exit: string, g: Gen)
    ensures Visits(g, Close(GenStmt(arm.body, ArmHead(arm.pattern, subject, bodyName, nextName, g)), exit, nextName),
                   Binds(arm.body))
  {
    var at := ArmHead(arm.pattern, subject, bodyName, nextName, g);
    VisitsArmHead(arm.pattern, subject, bodyName, nextName, g);
    StmtVisits(arm.body, at);
    VisitsBranch(g, at, GenStmt(arm.body, at), exit, nextName, {}, Binds(arm.body));
    assert {} + Binds(arm.body) == Binds(arm.body);
  }

  // An arm with a pattern: compare, then the body or the next arm.
  lemma {:induction false} SimArm(m: Machine, arms: seq<MatchArm>, subject: RegID, v: int, bodyName: string,
                                  nextName: string, exit: string, k: Gen, g: Gen, g2: Gen, c: Config, addrs: Addrs,
                                  live: set<string>, scopes: Scopes, trace: Trace, fuel: nat) returns (n: nat)
    requires OkArms(arms, live) && arms[0].pattern.Some? && UniqueNames(m.p.code) && ',' !in bodyName
    requires ArmCode(arms[0], subject, bodyName, nextName, exit, g, m.p.code) && Starts(k, exit, m.p.code)
    requires Starts(g2, nextName, m.p.code) && Visits(g, g2, Binds(arms[0].body))
    requires k == Close(GenArms(arms[1..], subject, exit, g2), exit, exit) && Extends(k, m.p.code)
    requires Ready(m, g, c, addrs, live, scopes, trace)
    requires subject <= g.regs && subject in c.regs && c.regs[subject] == Num(v)
    ensures Settled(m, g, k, c, n, addrs, addrs, fuel, EvalArms(arms, v, m.p.world, scopes, trace, fuel))
    decreases fuel, arms, 0, 1
  {
    var p, body := arms[0].pattern.value, arms[0].body;
    assert (arms decreases to arms[0]) && (arms[0] decreases to body);
    var x := GenExpr(p, g);
    var cmp := Build(x.g, CmpEq, [Reg(subject), Reg(x.reg)], "");
    ArmTest(arms[0], subject, bodyName, nextName, exit, g, cmp, m.p.code);
    n := SimPattern(m, p, subject, v, g, c, addrs, live, scopes, trace);
    var res := EvalExpr(p, m.p.world, scopes, trace);
    if res.Value? {
      n := AfterPattern(m, arms, subject, v, bodyName, nextName, exit, k, g, g2, cmp, c, n, addrs, live, scopes, trace,
                        res.value, res.scopes, res.trace, fuel);
    }
  }

  lemma ArmTest(arm: MatchArm, subject: RegID, bodyName: string, nextName: string, exit: string, g: Gen, cmp: ExprGen,
                code: seq<BasicBlock>)
    requires arm.pattern.Some? && ArmCode(arm, subject, bodyName, nextName, exit, g, code)
    requires cmp == Build(GenExpr(arm.pattern.value, g).g, CmpEq,
                          [Reg(subject), Reg(GenExpr(arm.pattern.value, g).reg)], "")
    ensures SameBlock(g, cmp.g) && Extends(EmitCondBranch(cmp.g, cmp.reg, bodyName, nextName), code)
  {
  }

  // The comparison is made.
  lemma {:induction false} AfterPattern(m: Machine, arms: seq<MatchArm>, subject: RegID, v: int, bodyName: string,
                                        nextName: string, exit: string, k: Gen, g: Gen, g2: Gen, cmp: ExprGen,
                                        c: Config, i: nat, addrs: Addrs, live: set<string>, scopes: Scopes,
                                        trace: Trace, u: int, s1: Scopes, t1: Trace, fuel: nat) returns (n: nat)
    requires OkArms(arms, live) && arms[0].pattern.Some? && UniqueNames(m.p.code) && ',' !in bodyName
    requires SameBlock(g, cmp.g) && Extends(EmitCondBranch(cmp.g, cmp.reg, bodyName, nextName), m.p.code)
    requires ArmCode(arms[0], subject, bodyName, nextName, exit, g, m.p.code) && Starts(k, exit, m.p.code)
    requires Starts(g2, nextName, m.p.code) && Visits(g, g2, Binds(arms[0].body))
    requires k == Close(GenArms(arms[1..], subject, exit, g2), exit, exit) && Extends(k, m.p.code)
    requires Ready(m, g, c, addrs, live, scopes, trace)
    requires ExprDone(m, g, cmp, c, i, addrs, Value(Int64.Truth(v == u), s1, t1))
    requires subject <= g.regs && subject in c.regs && c.regs[subject] == Num(v)
    ensures Settled(m, g, k, c, n, addrs, addrs, fuel,
                    if v == u then EvalStmt(arms[0].body, m.p.world, s1, t1, fuel)
                    else EvalArms(arms[1..], v, m.p.world, s1, t1, fuel))
    decreases fuel, arms, 0, 0
  {
    assert (arms decreases to arms[0]) && (arms[0] decreases to arms[0].body);
    if v == u {
      n := SimThisArm(m, arms[0], subject, bodyName, nextName, exit, k, g, cmp, c, i, addrs, live, scopes, trace,
                      s1, t1, fuel);
    } else {
      n := SimNextArm(m, arms, subject, v, bodyName, nextName, exit, k, g, g2, cmp, c, i, addrs, live, scopes, trace,
                      s1, t1, fuel);
    }
  }

  // The pattern matched.
  lemma {:induction false} SimThisArm(m: Machine, arm: MatchArm, subject: RegID, bodyName: string, nextName: string,
                                      exit: string, k: Gen, g: Gen, cmp: ExprGen, c: Config, i: nat, addrs: Addrs,
                                      live: set<string>, scopes: Scopes, trace: Trace, s1: Scopes, t1: Trace, fuel: nat)
    returns (n: nat)
    requires OkBranch(arm.body, live) && UniqueNames(m.p.code) && ',' !in bodyName
    requires SameBlock(g, cmp.g) && Extends(EmitCondBranch(cmp.g, cmp.reg, bodyName, nextName), m.p.code)
    requires ArmCode(arm, subject, bodyName, nextName, exit, g, m.p.code) && Starts(k, exit, m.p.code)
    requires Ready(m, g, c, addrs, live, scopes, trace) && ExprDone(m, g, cmp, c, i, addrs, Value(1, s1, t1))
    ensures Settled(m, g, k, c, n, addrs, addrs, fuel, EvalStmt(arm.body, m.p.world, s1, t1, fuel))
    decreases fuel, arm.body, 7
  {
    assert live - {} == live;
    n := TakeBranch(m, g, cmp, 0, bodyName, nextName, c, i, addrs, live, scopes, trace, 1, s1, t1,
                    arm.body, ArmHead(arm.pattern, subject, bodyName, nextName, g), {}, exit, k, fuel);
  }

  // The pattern did not match.
  lemma {:induction false} SimNextArm(m: Machine, arms: seq<MatchArm>, subject: RegID, v: int, bodyName: string,
                                      nextName: string, exit: string, k: Gen, g: Gen, g2: Gen, cmp: ExprGen, c: Config,
                                      i: nat, addrs: Addrs, live: set<string>, scopes: Scopes, trace: Trace,
                                      s1: Scopes, t1: Trace, fuel: nat) returns (n: nat)
    requires arms != [] && OkArms(arms[1..], live - Binds(arms[0].body)) && UniqueNames(m.p.code) && ',' !in bodyName
    requires SameBlock(g, cmp.g) && Extends(EmitCondBranch(cmp.g, cmp.reg, bodyName, nextName), m.p.code)
    requires Starts(g2, nextName, m.p.code) && Visits(g, g2, Binds(arms[0].body))
    requires k == Close(GenArms(arms[1..], subject, exit, g2), exit, exit) && Extends(k, m.p.code)
    requires Ready(m, g, c, addrs, live, scopes, trace) && ExprDone(m, g, cmp, c, i, addrs, Value(0, s1, t1))
    requires subject <= g.regs && subject in c.regs && c.regs[subject] == Num(v)
    ensures Settled(m, g, k, c, n, addrs, addrs, fuel, EvalArms(arms[1..], v, m.p.world, s1, t1, fuel))
    decreases fuel, arms[1..], 3
  {
    var names := Binds(arms[0].body);
    EnterBranch(m, g, cmp, 0, bodyName, nextName, c, i, addrs, live, scopes, trace, 0, s1, t1, g2, names);
    n := RestOfArms(m, arms[1..], subject, v, exit, k, g, g2, c, i + 1, addrs, live - names, s1, t1, fuel);
  }

  // From the block where the next arm starts.
  lemma {:induction false} RestOfArms(m: Machine, arms: seq<MatchArm>, subject: RegID, v: int, exit: string, k: Gen,
                                      g: Gen, g2: Gen, c: Config, i: nat, addrs: Addrs, live: set<string>,
                                      scopes: Scopes, trace: Trace, fuel: nat) returns (n: nat)
    requires OkArms(arms, live) && UniqueNames(m.p.code) && c.Running?
    requires k == Close(GenArms(arms, subject, exit, g2), exit, exit) && Extends(k, m.p.code) && g.regs <= g2.regs
    requires Ready(m, g2, Run(m, c, i), addrs, live, scopes, trace) && Keeps(c, Run(m, c, i), g.regs, addrs)
    requires subject <= g.regs && subject in c.regs && c.regs[subject] == Num(v)
    ensures Settled(m, g, k, c, n, addrs, addrs, fuel, EvalArms(arms, v, m.p.world, scopes, trace, fuel))
    decreases fuel, arms, 2
  {
    n := SimArms(m, arms, subject, v, exit, k, g2, Run(m, c, i), addrs, live, scopes, trace, fuel);
    Prepend(m, g, g2, k, c, i, n, addrs, addrs, fuel, EvalArms(arms, v, m.p.world, scopes, trace, fuel));
    n := i + n;
  }

  lemma MatchShape(s: Stmt, g: Gen, x: ExprGen, exit: string, code: seq<BasicBlock>)
    requires s.Match? && x == GenExpr(s.subject, g) && exit == MakeLabel(MatchExit, x.g.labels)
    requires Extends(GenStmt(s, g), code)
    ensures var g0 := TakeLabels(x.g, 1);
      && GenStmt(s, g) == Close(GenArms(s.arms, x.reg, exit, g0), exit, exit)
      && SameBlock(g, x.g) && Extends(x.g, code)
  {
    var g0 := TakeLabels(x.g, 1);
    MatchIs(s, g, x, exit);
    ExprPlain(s.subject, g);
    ArmsVisit(s.arms, x.reg, exit, g0);
    ExtendsClose(GenArms(s.arms, x.reg, exit, g0), exit, exit, code);
    ExtendsGrows(g0, GenArms(s.arms, x.reg, exit, g0), code);
    ExtendsSame(x.g, g0, code);
  }

  lemma ValueEndsOpen(e: Expr, g: Gen, live: set<string>)
    requires OkExpr(e, live)
    ensures !IsTerminated(GenExpr(e, g).g.code)
  {
  }

  lemma {:induction false} SimMatch(m: Machine, s: Stmt, g: Gen, c: Config, addrs: Addrs, live: set<string>,
                                    scopes: Scopes, trace: Trace, fuel: nat) returns (n: nat)
    requires s.Match? && OkStmt(s, live) && Extends(GenStmt(s, g), m.p.code) && UniqueNames(m.p.code)
    requires Ready(m, g, c, addrs, live, scopes, trace)
    ensures Settled(m, g, GenStmt(s, g), c, n, addrs, addrs, fuel, EvalStmt(s, m.p.world, scopes, trace, fuel))
    decreases fuel, s, 1
  {
    var x := GenExpr(s.subject, g);
    var exit := MakeLabel(MatchExit, x.g.labels);
    MatchShape(s, g, x, exit, m.p.code);
    ValueEndsOpen(s.subject, g, live);
    n := SimExpr(m, s.subject, g, c, addrs, live, scopes, trace);
    var res := EvalExpr(s.subject, m.p.world, scopes, trace);
    if res.Value? {
      n := AfterSubject(m, s.arms, x, exit, g, c, n, addrs, live, scopes, trace, res.value, res.scopes, res.trace,
                        fuel);
    }
  }

  // The subject is known.
  lemma {:induction false} AfterSubject(m: Machine, arms: seq<MatchArm>, x: ExprGen, exit: string, g: Gen, c: Config,
                                        i: nat, addrs: Addrs, live: set<string>, scopes: Scopes, trace: Trace,
                                        v: int, s1: Scopes, t1: Trace, fuel: nat) returns (n: nat)
    requires (arms == [] || OkArms(arms, live)) && UniqueNames(m.p.code) && SameBlock(g, x.g)
    requires Extends(Close(GenArms(arms, x.reg, exit, TakeLabels(x.g, 1)), exit, exit), m.p.code)
    requires Ready(m, g, c, addrs, live, scopes, trace) && ExprDone(m, g, x, c, i, addrs, Value(v, s1, t1))
    requires !IsTerminated(x.g.code)
    ensures Settled(m, g, Close(GenArms(arms, x.reg, exit, TakeLabels(x.g, 1)), exit, exit), c, n, addrs, addrs, fuel,
                    EvalArms(arms, v, m.p.world, s1, t1, fuel))
    decreases fuel, arms, 3
  {
    var g0 := TakeLabels(x.g, 1);
    var d := Run(m, c, i);
    ReadyAfter(m, g, x, c, i, addrs, live, scopes, trace, v, s1, t1);
    assert Ready(m, g0, d, addrs, live, s1, t1);
    n := MatchFrom(m, arms, x.reg, v, exit, g0, d, addrs, live, s1, t1, fuel);
    Prepend(m, g, g0, Close(GenArms(arms, x.reg, exit, g0), exit, exit), c, i, n, addrs, addrs, fuel,
            EvalArms(arms, v, m.p.world, s1, t1, fuel));
    n := i + n;
  }

  // The arms of a match, of which there may be none.
  lemma {:induction false} MatchFrom(m: Machine, arms: seq<MatchArm>, subject: RegID, v: int, exit: string, g: Gen,
                                     c: Config, addrs: Addrs, live: set<string>,
                                     scopes: Scopes, trace: Trace, fuel: nat) returns (n: nat)
    requires (arms == [] || OkArms(arms, live)) && UniqueNames(m.p.code)
    requires Extends(Close(GenArms(arms, subject, exit, g), exit, exit), m.p.code)
    requires Ready(m, g, c, addrs, live, scopes, trace) && (arms == [] ==> !IsTerminated(g.code))
    requires subject <= g.regs && subject in c.regs && c.regs[subject] == Num(v)
    ensures Settled(m, g, Close(GenArms(arms, subject, exit, g), exit, exit), c, n, addrs, addrs, fuel,
                    EvalArms(arms, v, m.p.world, scopes, trace, fuel))
    decreases fuel, arms, 2
  {
    if arms == [] {
      var k := Close(g, exit, exit);
      ExtendsClose(g, exit, exit, m.p.code);
      BranchStep(m, g, exit, c, k);
      JumpKeeps(c, Run(m, c, 1), k, g.regs, addrs);
      n := 1;
    } else {
      n := SimArms(m, arms, subject, v, exit, Close(GenArms(arms, subject, exit, g), exit, exit), g, c, addrs, live,
                   scopes, trace, fuel);
    }
  }
}
