// What visiting an expression or a statement leaves alone: finished blocks, the code
// already emitted, and the slots of names that are not declared inside it.
module CodegenFrame {
  import opened Common
  import opened Ast
  import opened Ir
  import opened Labels
  import opened Codegen

  // How statements are put together, with the labels named.

  lemma ThenIs(c: Expr, hasElse: bool, g: Gen, n: nat, t: string, f: string)
    requires n == IfLabels(c, g) && t == MakeLabel(Then, n) && f == MakeLabel(if hasElse then Else else Merge, n + 1)
    ensures var x := GenExpr(c, g);
            ThenHead(c, hasElse, g) ==
            StartBlock(EmitCondBranch(TakeLabels(x.g, if hasElse then 3 else 2), x.reg, t, f), t)
  {
  }

  lemma IfIs(s: Stmt, g: Gen, n: nat, merge: string)
    requires s.If? && s.elseBranch.None? && n == IfLabels(s.cond, g) && merge == MakeLabel(Merge, n + 1)
    ensures GenStmt(s, g) == Close(GenStmt(s.thenBranch, ThenHead(s.cond, false, g)), merge, merge)
  {
  }

  lemma IfElseIs(s: Stmt, f: Stmt, g: Gen, n: nat, other: string, merge: string)
    requires s.If? && s.elseBranch == Some(f) && n == IfLabels(s.cond, g)
    requires other == MakeLabel(Else, n + 1) && merge == MakeLabel(Merge, n + 2)
    ensures GenStmt(s, g)
         == Close(GenStmt(f, Close(GenStmt(s.thenBranch, ThenHead(s.cond, true, g)), merge, other)), merge, merge)
  {
  }

  lemma LoopIs(c: Expr, body: Stmt, ls: LoopLabels, g: Gen, cond: string, bodyName: string, exit: string)
    requires cond == MakeLabel(ls.cond, g.labels) && bodyName == MakeLabel(ls.body, g.labels + 1)
    requires exit == MakeLabel(ls.exit, g.labels + 2)
    ensures GenLoop(c, body, ls, g) == Close(GenStmt(body, LoopHead(c, cond, bodyName, exit, g)), cond, exit)
  {
  }

  lemma CountedIs(s: Stmt, g: Gen, n: nat, cond: string, bodyName: string, exit: string)
    requires s.Vloop? && s.cond.IntLit? && n == g.labels
    requires cond == MakeLabel(VloopCond, n + 1) && bodyName == MakeLabel(VloopBody, n + 2) &&
      exit == MakeLabel(VloopExit, n + 3)
    ensures var init := CounterInit(g);
            GenStmt(s, g) ==
              CounterStep(init.reg, cond, exit,
                          GenStmt(s.body, CounterHead(s.cond.value, init.reg, cond, bodyName, exit, init.g)))
  {
  }

  lemma ForIs(s: Stmt, g: Gen, init: ExprGen, n: nat, cond: string, bodyName: string, exit: string)
    requires s.For? && init == ForInit(s.variable, s.iterable, g) && n == init.g.labels
    requires cond == MakeLabel(ForCond, n) && bodyName == MakeLabel(ForBody, n + 1) && exit == MakeLabel(ForExit, n + 2)
    ensures ForHead(s.variable, s.iterable, g) == ForTest(init.reg, cond, bodyName, exit, init.g)
    ensures GenStmt(s, g) == Close(GenStmt(s.body, ForTest(init.reg, cond, bodyName, exit, init.g)), cond, exit)
  {
  }

  lemma MatchIs(s: Stmt, g: Gen, x: ExprGen, exit: string)
    requires s.Match? && x == GenExpr(s.subject, g) && exit == MakeLabel(MatchExit, x.g.labels)
    ensures GenStmt(s, g) == Close(GenArms(s.arms, x.reg, exit, TakeLabels(x.g, 1)), exit, exit)
  {
  }

  // The body of an arm, and the state after it.

  function AtArm(arm: MatchArm, subject: RegID, last: bool, exit: string, g: Gen): Gen {
    ArmHead(arm.pattern, subject, MakeLabel(ArmBody, g.labels), NextArm(last, exit, g),
            TakeLabels(g, if last then 1 else 2))
  }

  function ArmDone(arm: MatchArm, subject: RegID, last: bool, exit: string, g: Gen): Gen {
    GenStmt(arm.body, AtArm(arm, subject, last, exit, g))
  }

  lemma ArmsUnfold(arms: seq<MatchArm>, subject: RegID, exit: string, g: Gen)
    requires arms != []
    ensures var last := |arms| == 1;
            var h := ArmDone(arms[0], subject, last, exit, g);
            GenArms(arms, subject, exit, g) ==
              if arms[0].pattern.None? then BranchIfOpen(h, exit)
              else GenArms(arms[1..], subject, exit, Close(h, exit, NextArm(last, exit, g)))
  {
  }

  lemma ArmsAre(arms: seq<MatchArm>, subject: RegID, exit: string, g: Gen, n: nat, bodyName: string, nextName: string)
    requires arms != [] && n == g.labels && bodyName == MakeLabel(ArmBody, n) &&
      nextName == NextArm(|arms| == 1, exit, g)
    ensures var at := ArmHead(arms[0].pattern, subject, bodyName, nextName,
                              TakeLabels(g, if |arms| == 1 then 1 else 2));
            var h := GenStmt(arms[0].body, at);
            GenArms(arms, subject, exit, g) ==
              if arms[0].pattern.None? then BranchIfOpen(h, exit)
              else GenArms(arms[1..], subject, exit, Close(h, exit, nextName))
  {
    ArmsUnfold(arms, subject, exit, g);
  }

  // The blocks `f` continue the function under construction: finished blocks are kept,
  // the current one may have grown, further ones may follow.
  ghost predicate Extends(g: Gen, f: seq<BasicBlock>) {
    && |g.done| < |f|
    && g.done <= f
    && f[|g.done|].name == g.here
    && g.code <= f[|g.done|].instrs
  }

  ghost predicate Grows(g: Gen, h: Gen) {
    Extends(g, h.Blocks()) && g.regs <= h.regs && g.labels <= h.labels
  }

  lemma ExtendsTrans(g: Gen, h: Gen, f: seq<BasicBlock>)
    requires Extends(g, h.Blocks()) && Extends(h, f)
    ensures Extends(g, f)
  {
    var k := |g.done|;
    if k < |h.done| {
      assert h.Blocks()[k] == h.done[k] == f[k];
      assert g.done == h.done[..k];
    } else {
      assert h.done == h.Blocks()[..k] == g.done;
    }
  }

  lemma GrowsTrans(g: Gen, h: Gen, k: Gen)
    requires Grows(g, h) && Grows(h, k)
    ensures Grows(g, k)
  {
    ExtendsTrans(g, h, k.Blocks());
  }

  // Only the current block grows; no label is taken and no name is bound.
  ghost predicate SameBlock(g: Gen, h: Gen) {
    && h.done == g.done && h.here == g.here
    && h.labels == g.labels && h.slots == g.slots
    && g.regs <= h.regs
    && g.code <= h.code
  }

  lemma SameBlockGrows(g: Gen, h: Gen)
    requires SameBlock(g, h)
    ensures Grows(g, h)
  {
    assert h.Blocks()[..|g.done|] == g.done;
  }

  // What visiting an expression does: it appends instructions, none of them a terminator.
  ghost predicate Plain(g: Gen, h: Gen) {
    && SameBlock(g, h)
    && forall i :: |g.code| <= i < |h.code| ==> !IsTerminator(h.code[i])
  }

  lemma PlainTrans(g: Gen, h: Gen, k: Gen)
    requires Plain(g, h) && Plain(h, k)
    ensures Plain(g, k)
  {
    forall i | |g.code| <= i < |k.code|
      ensures !IsTerminator(k.code[i])
    {
      if i < |h.code| {
        assert k.code[i] == h.code[i];
      }
    }
  }

  lemma PlainBuild(g: Gen, h: Gen, op: Opcode, operands: seq<Operand>, tag: string)
    requires Plain(g, h)
    requires !op.Ret? && !op.Branch? && !op.CondBranch?
    ensures Plain(g, Build(h, op, operands, tag).g)
  {
    PlainTrans(g, h, Build(h, op, operands, tag).g);
  }

  lemma {:induction false} ExprPlain(e: Expr, g: Gen)
    ensures Plain(g, GenExpr(e, g).g)
    decreases e, 2
  {
    match e
    case Binary(op, l, r) => TwoPlain(e, l, r, g, BinaryOpcode(op));
    case Unary(op, x) =>
      var a := GenExpr(x, g);
      ExprPlain(x, g);
      PlainBuild(g, a.g, if op.Deref? then Load else UnaryOpcode(op), [Reg(a.reg)], "");
    case AssignExpr(_, _, _) => AssignPlain(e, g);
    case Call(_, _) => CallPlain(e, g);
    case Index(base, index) => TwoPlain(e, base, index, g, Opcode.Add);
    case Member(obj, field) =>
      ExprPlain(obj, g);
      PlainBuild(g, GenExpr(obj, g).g, Load, [], field);
    case Cast(x, _) =>
      ExprPlain(x, g);
      PlainBuild(g, GenExpr(x, g).g, Opcode.Cast, [Reg(GenExpr(x, g).reg)], "?");
    case ArrayLit(es) => ElementsPlain(es, 0, NO_REG, g);
    case _ => LeafPlain(e, g);
  }

  lemma LeafPlain(e: Expr, g: Gen)
    requires e.IntLit? || e.FloatLit? || e.StringLit? || e.CharLit? || e.BoolLit? || e.NilLit? || e.Ident?
    ensures Plain(g, GenExpr(e, g).g)
  {
  }

  lemma {:induction false} AssignPlain(e: Expr, g: Gen)
    requires e.AssignExpr?
    ensures Plain(g, GenExpr(e, g).g)
    decreases e, 1
  {
    var AssignExpr(op, target, value) := e;
    if op.Assign? {
      var a := GenExpr(value, g);
      ExprPlain(value, g);
      PlainTrans(g, a.g, StoreTo(a.g, target, a.reg));
    } else {
      TwoPlain(e, target, value, g, AssignOpcode(op));
      var a := GenExpr(target, g);
      var b := GenExpr(value, a.g);
      var c := Build(b.g, AssignOpcode(op), [Reg(a.reg), Reg(b.reg)], "");
      PlainTrans(g, c.g, StoreTo(c.g, target, c.reg));
    }
  }

  lemma {:induction false} CallPlain(e: Expr, g: Gen)
    requires e.Call?
    ensures Plain(g, GenExpr(e, g).g)
    decreases e, 1
  {
    var f := if e.callee.Ident? then g else GenExpr(e.callee, g).g;
    if !e.callee.Ident? {
      ExprPlain(e.callee, g);
    }
    ArgsPlain(e.args, f);
    PlainTrans(g, f, GenArgs(e.args, f).g);
    PlainTrans(g, GenArgs(e.args, f).g, GenExpr(e, g).g);
  }

  // Two operands and the instruction that combines them.
  lemma {:induction false} TwoPlain(whole: Expr, l: Expr, r: Expr, g: Gen, op: Opcode)
    requires (whole decreases to l) && (whole decreases to r)
    requires !op.Ret? && !op.Branch? && !op.CondBranch?
    ensures var a := GenExpr(l, g);
            var b := GenExpr(r, a.g);
            Plain(g, Build(b.g, op, [Reg(a.reg), Reg(b.reg)], "").g)
    decreases whole, 0
  {
    var a := GenExpr(l, g);
    var b := GenExpr(r, a.g);
    ExprPlain(l, g);
    ExprPlain(r, a.g);
    PlainTrans(g, a.g, b.g);
    PlainBuild(g, b.g, op, [Reg(a.reg), Reg(b.reg)], "");
  }

  lemma {:induction false} ArgsPlain(args: seq<Expr>, g: Gen)
    ensures Plain(g, GenArgs(args, g).g) && |GenArgs(args, g).regs| == |args|
    decreases args, 0
  {
    if args != [] {
      var a := GenExpr(args[0], g);
      ExprPlain(args[0], g);
      ArgsPlain(args[1..], a.g);
      PlainTrans(g, a.g, GenArgs(args, g).g);
    }
  }

  lemma {:induction false} ElementsPlain(es: seq<Expr>, i: nat, first: RegID, g: Gen)
    ensures Plain(g, GenElements(es, i, first, g).g)
    decreases es, 0
  {
    if es != [] {
      var a := GenExpr(es[0], g);
      ExprPlain(es[0], g);
      var slot := Build(a.g, Alloca, [], "__arr_" + Decimal(i));
      PlainBuild(g, a.g, Alloca, [], "__arr_" + Decimal(i));
      var g1 := EmitStore(slot.g, a.reg, slot.reg);
      PlainTrans(g, slot.g, g1);
      ElementsPlain(es[1..], i + 1, if i == 0 then slot.reg else first, g1);
      PlainTrans(g, g1, GenElements(es, i, first, g).g);
    }
  }

  // The names a statement binds; arms behind a wildcard are never lowered.
  ghost function Binds(s: Stmt): set<string>
    decreases s, 0
  {
    match s
    case Block(ss) => BindsIn(ss)
    case VarDecl(_, x, _) => {x}
    case If(_, t, None) => Binds(t)
    case If(_, t, Some(f)) => Binds(t) + Binds(f)
    case While(_, body) => Binds(body)
    case Vloop(_, body) => Binds(body)
    case For(x, _, body) => {x} + Binds(body)
    case Match(_, arms) => BindsInArms(arms)
    case _ => {}
  }

  ghost function BindsIn(ss: seq<Stmt>): set<string>
    decreases ss, 0
  {
    if ss == [] then {} else Binds(ss[0]) + BindsIn(ss[1..])
  }

  ghost function BindsInArms(arms: seq<MatchArm>): set<string>
    decreases arms, 0
  {
    if arms == [] then {}
    else
      assert (arms decreases to arms[0]) && (arms[0] decreases to arms[0].body);
      Binds(arms[0].body) + (if arms[0].pattern.None? then {} else BindsInArms(arms[1..]))
  }

  // Exactly the bound names get a new slot.
  ghost predicate Rebinds(g: Gen, h: Gen, names: set<string>) {
    && g.regs <= h.regs
    && (forall x :: x in names ==> x in h.slots && g.regs < h.slots[x] <= h.regs)
    && (forall x :: x !in names ==> (x in h.slots <==> x in g.slots))
    && forall x :: x !in names && x in g.slots ==> h.slots[x] == g.slots[x]
  }

  ghost predicate Visits(g: Gen, h: Gen, names: set<string>) {
    Grows(g, h) && Rebinds(g, h, names)
  }

  lemma VisitsTrans(g: Gen, h: Gen, k: Gen, d: set<string>, e: set<string>)
    requires Visits(g, h, d) && Visits(h, k, e)
    ensures Visits(g, k, d + e)
  {
    GrowsTrans(g, h, k);
  }

  lemma VisitsSameBlock(g: Gen, h: Gen)
    requires SameBlock(g, h)
    ensures Visits(g, h, {})
  {
    SameBlockGrows(g, h);
  }

  lemma VisitsExpr(e: Expr, g: Gen)
    ensures Visits(g, GenExpr(e, g).g, {})
  {
    ExprPlain(e, g);
    VisitsSameBlock(g, GenExpr(e, g).g);
  }

  // Appending any instructions to the current block and then opening a new one.
  lemma VisitsStart(g: Gen, h: Gen, name: string)
    requires Visits(g, h, {})
    ensures Visits(g, StartBlock(h, name), {})
  {
    var k := StartBlock(h, name);
    assert h.Blocks() == k.Blocks()[..|h.done| + 1];
    assert k.Blocks()[|h.done|] == BasicBlock(h.here, h.code);
    assert h.done == k.Blocks()[..|h.done|];
    GrowsTrans(g, h, k);
  }

  // A branch (or nothing) and the start of the next block.
  lemma VisitsClose(g: Gen, h: Gen, target: string, name: string, d: set<string>)
    requires Visits(g, h, d)
    ensures Visits(g, Close(h, target, name), d)
  {
    var b := BranchIfOpen(h, target);
    VisitsSameBlock(h, b);
    VisitsStart(h, b, name);
    VisitsTrans(g, h, StartBlock(b, name), d, {});
    assert d + {} == d;
  }

  lemma VisitsLoopHead(c: Expr, cond: string, bodyName: string, exit: string, g: Gen)
    ensures Visits(g, LoopHead(c, cond, bodyName, exit, g), {})
  {
    var before := EmitBranch(TakeLabels(g, 3), cond);
    assert Visits(g, before, {}) by { assert before.Blocks()[..|g.done|] == g.done; }
    var atCond := StartBlock(before, cond);
    VisitsStart(g, before, cond);
    ExprPlain(c, atCond);
    var x := GenExpr(c, atCond);
    var test := EmitCondBranch(x.g, x.reg, bodyName, exit);
    VisitsSameBlock(atCond, test);
    VisitsTrans(g, atCond, test, {}, {});
    VisitsStart(g, test, bodyName);
  }

  lemma VisitsCounterHead(limit: int, slot: RegID, cond: string, bodyName: string, exit: string, g: Gen)
    ensures Visits(g, CounterHead(limit, slot, cond, bodyName, exit, g), {})
  {
    var before := EmitBranch(g, cond);
    VisitsSameBlock(g, before);
    var atCond := StartBlock(before, cond);
    VisitsStart(g, before, cond);
    var cur := Build(atCond, Load, [Reg(slot)], "");
    var lim := Build(cur.g, Copy, [IntImm(limit)], "");
    var cmp := Build(lim.g, CmpLt, [Reg(cur.reg), Reg(lim.reg)], "");
    var test := EmitCondBranch(cmp.g, cmp.reg, bodyName, exit);
    VisitsSameBlock(atCond, test);
    VisitsTrans(g, atCond, test, {}, {});
    VisitsStart(g, test, bodyName);
  }

  lemma VisitsCounterInit(g: Gen)
    ensures Visits(g, CounterInit(g).g, {})
  {
    assert CounterInit(g).g.Blocks()[..|g.done|] == g.done;
  }

  lemma VisitsForInit(x: string, iterable: Expr, g: Gen)
    ensures Visits(g, ForInit(x, iterable, g).g, {x})
    ensures ForInit(x, iterable, g).g.labels == g.labels
  {
    var slot := Build(g, Alloca, [], x);
    var bound := Bind(slot.g, x, slot.reg);
    assert Visits(g, bound, {x}) by { SameBlockGrows(g, slot.g); }
    ExprPlain(iterable, bound);
    VisitsSameBlock(bound, ForInit(x, iterable, g).g);
    VisitsTrans(g, bound, ForInit(x, iterable, g).g, {x}, {});
  }

  lemma VisitsForTest(iter: RegID, cond: string, bodyName: string, exit: string, g: Gen)
    ensures Visits(g, ForTest(iter, cond, bodyName, exit, g), {})
  {
    var before := EmitBranch(TakeLabels(g, 3), cond);
    assert Visits(g, before, {}) by { assert before.Blocks()[..|g.done|] == g.done; }
    var atCond := StartBlock(before, cond);
    VisitsStart(g, before, cond);
    var cur := Build(atCond, Load, [Reg(iter)], "");
    var test := EmitCondBranch(cur.g, cur.reg, bodyName, exit);
    VisitsSameBlock(atCond, test);
    VisitsTrans(g, atCond, test, {}, {});
    VisitsStart(g, test, bodyName);
  }

  lemma VisitsForHead(x: string, iterable: Expr, g: Gen)
    ensures Visits(g, ForHead(x, iterable, g), {x})
  {
    var init := ForInit(x, iterable, g);
    var n := init.g.labels;
    VisitsForInit(x, iterable, g);
    VisitsForTest(init.reg, MakeLabel(ForCond, n), MakeLabel(ForBody, n + 1), MakeLabel(ForExit, n + 2), init.g);
    VisitsTrans(g, init.g, ForHead(x, iterable, g), {x}, {});
  }

  lemma VisitsArmHead(pattern: Option<Expr>, subject: RegID, bodyName: string, nextName: string, g: Gen)
    ensures Visits(g, ArmHead(pattern, subject, bodyName, nextName, g), {})
  {
    match pattern
    case None =>
      VisitsSameBlock(g, EmitBranch(g, bodyName));
      VisitsStart(g, EmitBranch(g, bodyName), bodyName);
    case Some(p) =>
      ExprPlain(p, g);
      var x := GenExpr(p, g);
      var cmp := Build(x.g, CmpEq, [Reg(subject), Reg(x.reg)], "");
      var test := EmitCondBranch(cmp.g, cmp.reg, bodyName, nextName);
      VisitsSameBlock(g, test);
      VisitsStart(g, test, bodyName);
  }

  lemma VisitsThenHead(c: Expr, hasElse: bool, g: Gen)
    ensures Visits(g, ThenHead(c, hasElse, g), {})
    ensures IfLabels(c, g) == g.labels
  {
    ExprPlain(c, g);
    var x := GenExpr(c, g);
    var n := x.g.labels;
    var other := MakeLabel(if hasElse then Else else Merge, n + 1);
    var test := EmitCondBranch(TakeLabels(x.g, if hasElse then 3 else 2), x.reg, MakeLabel(Then, n), other);
    assert Visits(g, test, {}) by { assert test.Blocks()[..|g.done|] == g.done; }
    VisitsStart(g, test, MakeLabel(Then, n));
  }

  lemma VisitsReturn(result: Option<Expr>, g: Gen)
    ensures Visits(g, GenReturn(result, g), {})
  {
    if result.Some? {
      ExprPlain(result.value, g);
    }
    var g1 := if result.None? then EmitRet(g, NO_REG)
      else EmitRet(GenExpr(result.value, g).g, GenExpr(result.value, g).reg);
    VisitsSameBlock(g, g1);
    var g2 := TakeLabels(g1, 1);
    assert Visits(g, g2, {}) by { assert g2.Blocks() == g1.Blocks(); }
    VisitsStart(g, g2, MakeLabel(AfterRet, g1.labels));
  }

  lemma VisitsVarDecl(x: string, init: Option<Expr>, g: Gen)
    ensures Visits(g, GenVarDecl(x, init, g), {x})
  {
    var slot := Build(g, Alloca, [], x);
    var bound := Bind(slot.g, x, slot.reg);
    assert Visits(g, bound, {x}) by { SameBlockGrows(g, slot.g); }
    if init.Some? {
      ExprPlain(init.value, bound);
      VisitsSameBlock(bound, GenVarDecl(x, init, g));
      VisitsTrans(g, bound, GenVarDecl(x, init, g), {x}, {});
    }
  }

  lemma VisitsCounterStep(slot: RegID, cond: string, exit: string, g: Gen)
    ensures Visits(g, CounterStep(slot, cond, exit, g), {})
  {
    var cur := Build(g, Load, [Reg(slot)], "");
    var one := Build(cur.g, Copy, [IntImm(1)], "");
    var inc := Build(one.g, Opcode.Add, [Reg(cur.reg), Reg(one.reg)], "");
    var g1 := if IsTerminated(g.code) then g else EmitBranch(EmitStore(inc.g, inc.reg, slot), cond);
    VisitsSameBlock(g, g1);
    VisitsStart(g, g1, exit);
  }

  // A visited statement followed by the end of its branch.
  lemma VisitsBranch(g: Gen, at: Gen, h: Gen, target: string, name: string, d: set<string>, e: set<string>)
    requires Visits(g, at, d) && Visits(at, h, e)
    ensures Visits(g, Close(h, target, name), d + e)
  {
    VisitsTrans(g, at, h, d, e);
    VisitsClose(g, h, target, name, d + e);
  }

  lemma {:induction false} StmtVisits(s: Stmt, g: Gen)
    ensures Visits(g, GenStmt(s, g), Binds(s))
    decreases s, 2
  {
    match s
    case Block(ss) => StmtsVisit(ss, g);
    case ExprStmt(e) => VisitsExpr(e, g);
    case VarDecl(_, x, init) => VisitsVarDecl(x, init, g);
    case Return(result) => VisitsReturn(result, g);
    case If(_, _, _) => IfVisits(s, g);
    case While(c, body) => LoopVisits(c, body, WHILE_LABELS, g);
    case Vloop(c, body) =>
      if c.IntLit? {
        CountedVisits(s, g);
      } else {
        LoopVisits(c, body, VLOOP_LABELS, g);
      }
    case For(_, _, _) => ForVisits(s, g);
    case Break => VisitsSameBlock(g, g);
    case Continue => VisitsSameBlock(g, g);
    case Match(_, _) => MatchVisits(s, g);
  }

  lemma {:induction false} ForVisits(s: Stmt, g: Gen)
    requires s.For?
    ensures Visits(g, GenStmt(s, g), Binds(s))
    decreases s, 1
  {
    var atBody := ForHead(s.variable, s.iterable, g);
    var n := ForInit(s.variable, s.iterable, g).g.labels;
    VisitsForHead(s.variable, s.iterable, g);
    StmtVisits(s.body, atBody);
    VisitsBranch(g, atBody, GenStmt(s.body, atBody), MakeLabel(ForCond, n), MakeLabel(ForExit, n + 2), {s.variable},
                 Binds(s.body));
  }

  lemma {:induction false} MatchVisits(s: Stmt, g: Gen)
    requires s.Match?
    ensures Visits(g, GenStmt(s, g), Binds(s))
    decreases s, 1
  {
    var x := GenExpr(s.subject, g);
    ExprPlain(s.subject, g);
    var g1 := TakeLabels(x.g, 1);
    assert Visits(g, g1, {}) by { assert g1.Blocks()[..|g.done|] == g.done; }
    ChainVisits(s.arms, x.reg, MakeLabel(MatchExit, x.g.labels), g, g1);
  }

  lemma {:induction false} ChainVisits(arms: seq<MatchArm>, subject: RegID, exit: string, g: Gen, g1: Gen)
    requires Visits(g, g1, {})
    ensures Visits(g, Close(GenArms(arms, subject, exit, g1), exit, exit), BindsInArms(arms))
    decreases arms, 2
  {
    ArmsVisit(arms, subject, exit, g1);
    VisitsBranch(g, g1, GenArms(arms, subject, exit, g1), exit, exit, {}, BindsInArms(arms));
    assert {} + BindsInArms(arms) == BindsInArms(arms);
  }

  // A statement followed by the end of its branch.
  lemma {:induction false} ClosedVisits(t: Stmt, at: Gen, target: string, name: string, g: Gen, d: set<string>)
    requires Visits(g, at, d)
    ensures Visits(g, Close(GenStmt(t, at), target, name), d + Binds(t))
    decreases t, 3
  {
    StmtVisits(t, at);
    VisitsBranch(g, at, GenStmt(t, at), target, name, d, Binds(t));
  }

  lemma {:induction false} IfVisits(s: Stmt, g: Gen)
    requires s.If?
    ensures Visits(g, GenStmt(s, g), Binds(s))
    decreases s, 1
  {
    var n := IfLabels(s.cond, g);
    if s.elseBranch.None? {
      var at, merge := ThenHead(s.cond, false, g), MakeLabel(Merge, n + 1);
      VisitsThenHead(s.cond, false, g);
      ClosedVisits(s.thenBranch, at, merge, merge, g, {});
      IfIs(s, g, n, merge);
      assert {} + Binds(s.thenBranch) == Binds(s);
    } else {
      var at, other, merge := ThenHead(s.cond, true, g), MakeLabel(Else, n + 1), MakeLabel(Merge, n + 2);
      VisitsThenHead(s.cond, true, g);
      BranchesVisit(s, s.elseBranch.value, at, other, merge, g);
      IfElseIs(s, s.elseBranch.value, g, n, other, merge);
    }
  }

  lemma {:induction false} BranchesVisit(s: Stmt, f: Stmt, at: Gen, other: string, merge: string, g: Gen)
    requires s.If? && s.elseBranch == Some(f) && Visits(g, at, {})
    ensures Visits(g, Close(GenStmt(f, Close(GenStmt(s.thenBranch, at), merge, other)), merge, merge), Binds(s))
    decreases s, 0
  {
    var t := s.thenBranch;
    ClosedVisits(t, at, merge, other, g, {});
    assert {} + Binds(t) == Binds(t);
    ClosedVisits(f, Close(GenStmt(t, at), merge, other), merge, merge, g, Binds(t));
  }

  lemma {:induction false} CountedVisits(s: Stmt, g: Gen)
    requires s.Vloop? && s.cond.IntLit?
    ensures Visits(g, GenStmt(s, g), Binds(s))
    decreases s, 1
  {
    var init, n, limit := CounterInit(g), g.labels, s.cond.value;
    var cond, bodyName, exit := MakeLabel(VloopCond, n + 1), MakeLabel(VloopBody, n + 2), MakeLabel(VloopExit, n + 3);
    VisitsCounterInit(g);
    var atBody := CounterHead(limit, init.reg, cond, bodyName, exit, init.g);
    VisitsCounterHead(limit, init.reg, cond, bodyName, exit, init.g);
    VisitsOn(g, init.g, atBody);
    CountedBodyVisits(s.body, init.reg, cond, exit, g, atBody);
    CountedIs(s, g, n, cond, bodyName, exit);
  }

  lemma VisitsOn(g: Gen, h: Gen, k: Gen)
    requires Visits(g, h, {}) && Visits(h, k, {})
    ensures Visits(g, k, {})
  {
    VisitsTrans(g, h, k, {}, {});
  }

  lemma {:induction false} CountedBodyVisits(body: Stmt, slot: RegID, cond: string, exit: string, g: Gen, atBody: Gen)
    requires Visits(g, atBody, {})
    ensures Visits(g, CounterStep(slot, cond, exit, GenStmt(body, atBody)), Binds(body))
    decreases body, 3
  {
    StmtVisits(body, atBody);
    VisitsTrans(g, atBody, GenStmt(body, atBody), {}, Binds(body));
    assert {} + Binds(body) == Binds(body);
    VisitsStep(slot, cond, exit, g, GenStmt(body, atBody), Binds(body));
  }

  lemma VisitsStep(slot: RegID, cond: string, exit: string, g: Gen, h: Gen, names: set<string>)
    requires Visits(g, h, names)
    ensures Visits(g, CounterStep(slot, cond, exit, h), names)
  {
    VisitsCounterStep(slot, cond, exit, h);
    VisitsTrans(g, h, CounterStep(slot, cond, exit, h), names, {});
    assert names + {} == names;
  }

  lemma {:induction false} LoopVisits(c: Expr, body: Stmt, ls: LoopLabels, g: Gen)
    ensures Visits(g, GenLoop(c, body, ls, g), Binds(body))
    decreases body, 5
  {
    var n := g.labels;
    LoopNamedVisits(c, body, MakeLabel(ls.cond, n), MakeLabel(ls.body, n + 1), MakeLabel(ls.exit, n + 2), g);
  }

  lemma {:induction false} LoopNamedVisits(c: Expr, body: Stmt, cond: string, bodyName: string, exit: string, g: Gen)
    ensures Visits(g, Close(GenStmt(body, LoopHead(c, cond, bodyName, exit, g)), cond, exit), Binds(body))
    decreases body, 4
  {
    VisitsLoopHead(c, cond, bodyName, exit, g);
    ClosedVisits(body, LoopHead(c, cond, bodyName, exit, g), cond, exit, g, {});
    assert {} + Binds(body) == Binds(body);
  }

  lemma {:induction false} StmtsVisit(ss: seq<Stmt>, g: Gen)
    ensures Visits(g, GenStmts(ss, g), BindsIn(ss))
    decreases ss, 0
  {
    if ss == [] {
      VisitsSameBlock(g, g);
    } else {
      StmtVisits(ss[0], g);
      StmtsVisit(ss[1..], GenStmt(ss[0], g));
      VisitsTrans(g, GenStmt(ss[0], g), GenStmts(ss, g), Binds(ss[0]), BindsIn(ss[1..]));
    }
  }

  // One arm up to the end of its body.
  lemma {:induction false} ArmVisits(arm: MatchArm, subject: RegID, bodyName: string, nextName: string, g: Gen, k: nat)
    ensures Visits(g, GenStmt(arm.body, ArmHead(arm.pattern, subject, bodyName, nextName, TakeLabels(g, k))),
                   Binds(arm.body))
    decreases arm, 0
  {
    var g0 := TakeLabels(g, k);
    assert Visits(g, g0, {}) by { assert g0.Blocks() == g.Blocks(); VisitsSameBlock(g, g); }
    var atBody := ArmHead(arm.pattern, subject, bodyName, nextName, g0);
    VisitsArmHead(arm.pattern, subject, bodyName, nextName, g0);
    VisitsTrans(g, g0, atBody, {}, {});
    StmtVisits(arm.body, atBody);
    VisitsTrans(g, atBody, GenStmt(arm.body, atBody), {}, Binds(arm.body));
    assert {} + Binds(arm.body) == Binds(arm.body);
  }

  lemma {:induction false} ArmsVisit(arms: seq<MatchArm>, subject: RegID, exit: string, g: Gen)
    ensures Visits(g, GenArms(arms, subject, exit, g), BindsInArms(arms))
    decreases arms, 1
  {
    if arms == [] {
      VisitsSameBlock(g, g);
    } else {
      var last := |arms| == 1;
      ArmsNamedVisit(arms, subject, exit, g, MakeLabel(ArmBody, g.labels), NextArm(last, exit, g), if last then 1
                     else 2);
      ArmsAre(arms, subject, exit, g, g.labels, MakeLabel(ArmBody, g.labels), NextArm(last, exit, g));
    }
  }

  lemma {:induction false} ArmsNamedVisit(arms: seq<MatchArm>, subject: RegID, exit: string, g: Gen, bodyName: string,
                                          nextName: string, k: nat)
    requires arms != []
    ensures var h := GenStmt(arms[0].body, ArmHead(arms[0].pattern, subject, bodyName, nextName, TakeLabels(g, k)));
      Visits(g,
             if arms[0].pattern.None? then BranchIfOpen(h, exit)
             else GenArms(arms[1..], subject, exit, Close(h, exit, nextName)),
             BindsInArms(arms))
    decreases arms, 0
  {
    var names := Binds(arms[0].body);
    var h := GenStmt(arms[0].body, ArmHead(arms[0].pattern, subject, bodyName, nextName, TakeLabels(g, k)));
    ArmVisits(arms[0], subject, bodyName, nextName, g, k);
    if arms[0].pattern.None? {
      VisitsSameBlock(h, BranchIfOpen(h, exit));
      VisitsTrans(g, h, BranchIfOpen(h, exit), names, {});
      assert BindsInArms(arms) == names + {};
    } else {
      VisitsClose(g, h, exit, nextName, names);
      var next := Close(h, exit, nextName);
      ArmsVisit(arms[1..], subject, exit, next);
      VisitsTrans(g, next, GenArms(arms[1..], subject, exit, next), names, BindsInArms(arms[1..]));
    }
  }
}
