// The visitor that lowers a syntax tree through the builder, in the source's own shape:
// lastReg, the flat slot map and the builder are updated in place.
module IrGen {
  import opened Common
  import opened Ast
  import opened Ir
  import opened Labels
  import opened Codegen
  import opened CodegenFrame
  import opened IrBuilder

  class IRModule {
    var functions: seq<IRFunction>

    constructor ()
      ensures functions == []
    {
      functions := [];
    }

    method AddFunction(name: string) returns (f: IRFunction)
      modifies this
      ensures fresh(f) && f.name == name && f.blocks == [] && f.regCounter == 0
      ensures functions == old(functions) + [f]
    {
      f := new IRFunction(name);
      functions := functions + [f];
    }
  }

  class IRGen {
    const builder: IRBuilder
    var lastReg: RegID
    var varSlots: map<string, RegID>

    constructor ()
      ensures fresh(builder) && builder.fn == null
    {
      builder := new IRBuilder();
      lastReg, varSlots := NO_REG, map[];
    }

    ghost predicate Valid()
      reads this, builder, builder.Repr
    {
      this !in builder.Repr && builder.Valid()
    }

    // The generation state this object holds.
    ghost function State(): Gen
      reads this, builder
    {
      builder.gen.(slots := varSlots)
    }

    // What every visitor keeps: it stays attached to its function and touches only its own
    // objects and new ones.
    twostate predicate Attached()
      reads this, builder, builder.Repr
    {
      Valid() && fresh(builder.Repr - old(builder.Repr)) && builder.fn == old(builder.fn)
    }

    // Each visitor moves the state as the specification function says.

    method VisitIdent(x: string)
      requires Valid()
      modifies this, builder, builder.Repr
      ensures Attached() && ExprGen(State(), lastReg) == GenIdent(x, old(State()))
    {
      if IsBareCall(x) {
        lastReg := builder.BuildValue(Opcode.Call, [], x);
      } else if x !in varSlots {
        lastReg := builder.BuildValue(Load, [], x);
      } else {
        lastReg := builder.BuildValue(Load, [Reg(varSlots[x])], "");
      }
    }

    method StoreToTarget(target: Expr, value: RegID)
      requires Valid()
      modifies this, builder, builder.Repr
      ensures Attached() && State() == StoreTo(old(State()), target, value)
    {
      if target.Ident? && target.name in varSlots {
        builder.BuildStore(value, varSlots[target.name]);
      }
    }

    method VisitLiteral(operand: Operand, tag: string)
      requires Valid()
      modifies this, builder, builder.Repr
      ensures Attached() && ExprGen(State(), lastReg) == Build(old(State()), Copy, [operand], tag)
    {
      lastReg := builder.BuildValue(Copy, [operand], tag);
    }

    method VisitExpr(e: Expr)
      requires Valid()
      modifies this, builder, builder.Repr
      ensures Attached() && ExprGen(State(), lastReg) == GenExpr(e, old(State()))
      decreases e, 2
    {
      match e
      case IntLit(v) => VisitLiteral(IntImm(v), "");
      case FloatLit(t) => VisitLiteral(FloatImm(t), "");
      case StringLit(t) => VisitLiteral(StringRef(t), "");
      case CharLit(c) => VisitLiteral(IntImm(c), "");
      case BoolLit(b) => VisitLiteral(BoolImm(b), "");
      case NilLit => VisitLiteral(IntImm(0), "nil");
      case Ident(x) => VisitIdent(x);
      case Binary(op, l, r) => VisitTwo(e, l, r, BinaryOpcode(op));
      case Unary(_, _) => VisitUnary(e);
      case AssignExpr(_, _, _) => VisitAssign(e);
      case Call(_, _) => VisitCall(e);
      case Index(base, index) => VisitTwo(e, base, index, Opcode.Add);
      case Member(_, _) => VisitMember(e);
      case Cast(_, _) => VisitCast(e);
      case ArrayLit(es) => VisitArray(es);
    }

    // Both operands of `whole`, then the instruction that combines them.
    method VisitTwo(ghost whole: Expr, l: Expr, r: Expr, op: Opcode)
      requires Valid() && (whole decreases to l) && (whole decreases to r)
      modifies this, builder, builder.Repr
      ensures Attached()
      ensures var a := GenExpr(l, old(State()));
              var b := GenExpr(r, a.g);
              ExprGen(State(), lastReg) == Build(b.g, op, [Reg(a.reg), Reg(b.reg)], "")
      decreases whole, 0
    {
      VisitExpr(l);
      var lhs := lastReg;
      VisitExpr(r);
      var rhs := lastReg;
      lastReg := builder.BuildValue(op, [Reg(lhs), Reg(rhs)], "");
    }

    method VisitMember(e: Expr)
      requires Valid() && e.Member?
      modifies this, builder, builder.Repr
      ensures Attached() && ExprGen(State(), lastReg) == GenExpr(e, old(State()))
      decreases e, 1
    {
      VisitExpr(e.object_);
      lastReg := builder.BuildValue(Load, [], e.field);
    }

    method VisitCast(e: Expr)
      requires Valid() && e.Cast?
      modifies this, builder, builder.Repr
      ensures Attached() && ExprGen(State(), lastReg) == GenExpr(e, old(State()))
      decreases e, 1
    {
      VisitExpr(e.inner);
      lastReg := builder.BuildValue(Opcode.Cast, [Reg(lastReg)], "?");
    }

    method VisitUnary(e: Expr)
      requires Valid() && e.Unary?
      modifies this, builder, builder.Repr
      ensures Attached() && ExprGen(State(), lastReg) == GenExpr(e, old(State()))
      decreases e, 1
    {
      VisitExpr(e.operand);
      if e.uop.Deref? {
        lastReg := builder.BuildValue(Load, [Reg(lastReg)], "");
      } else if !e.uop.AddrOf? {
        lastReg := builder.BuildValue(UnaryOpcode(e.uop), [Reg(lastReg)], "");
      }
    }

    method VisitAssign(e: Expr)
      requires Valid() && e.AssignExpr?
      modifies this, builder, builder.Repr
      ensures Attached() && ExprGen(State(), lastReg) == GenExpr(e, old(State()))
      decreases e, 1
    {
      if e.aop.Assign? {
        VisitExpr(e.rvalue);
      } else {
        VisitTwo(e, e.target, e.rvalue, AssignOpcode(e.aop));
      }
      var val := lastReg;
      StoreToTarget(e.target, val);
      lastReg := val;
    }

    method VisitCall(e: Expr)
      requires Valid() && e.Call?
      modifies this, builder, builder.Repr
      ensures Attached() && ExprGen(State(), lastReg) == GenExpr(e, old(State()))
      decreases e, 1
    {
      var calleeName;
      if e.callee.Ident? {
        calleeName := e.callee.name;
      } else {
        VisitExpr(e.callee);
        calleeName := "%" + Decimal(lastReg);
      }
      var args := VisitArgs(e.args);
      lastReg := builder.BuildValue(Opcode.Call, RegOperands(args), calleeName);
    }

    method VisitArgs(es: seq<Expr>) returns (args: seq<RegID>)
      requires Valid()
      modifies this, builder, builder.Repr
      ensures Attached() && ArgsGen(State(), args) == GenArgs(es, old(State()))
      decreases es, 0
    {
      ghost var all := GenArgs(es, State());
      args := [];
      for i := 0 to |es|
        invariant Attached()
        invariant all == ArgsGen(GenArgs(es[i..], State()).g, args + GenArgs(es[i..], State()).regs)
      {
        assert es[i..][1..] == es[i + 1..];
        ghost var rest := GenArgs(es[i..], State()).regs;
        ghost var before := args;
        VisitExpr(es[i]);
        args := args + [lastReg];
        assert before + rest == args + rest[1..];
      }
      assert args + [] == args;
    }

    method VisitArray(es: seq<Expr>)
      requires Valid()
      modifies this, builder, builder.Repr
      ensures Attached() && ExprGen(State(), lastReg) == GenElements(es, 0, NO_REG, old(State()))
      decreases es, 1
    {
      ghost var all := GenElements(es, 0, NO_REG, State());
      var firstSlot := NO_REG;
      for i := 0 to |es|
        invariant Attached()
        invariant all == GenElements(es[i..], i, firstSlot, State())
      {
        firstSlot := VisitElement(es, i, firstSlot);
      }
      lastReg := firstSlot;
    }

    // Element i and its slot.
    method VisitElement(es: seq<Expr>, i: nat, firstSlot: RegID) returns (first: RegID)
      requires Valid() && i < |es|
      modifies this, builder, builder.Repr
      ensures Attached()
      ensures GenElements(es[i..], i, firstSlot, old(State())) == GenElements(es[i + 1..], i + 1, first, State())
      decreases es, 0
    {
      VisitExpr(es[i]);
      var slot := StoreInNewSlot(lastReg, "__arr_" + Decimal(i));
      first := if i == 0 then slot else firstSlot;
      assert es[i..][1..] == es[i + 1..];
    }

    method StoreInNewSlot(value: RegID, name: string) returns (slot: RegID)
      requires Valid()
      modifies this, builder, builder.Repr
      ensures Attached() && var b := Build(old(State()), Alloca, [], name);
              slot == b.reg && State() == EmitStore(b.g, value, slot)
    {
      slot := builder.BuildValue(Alloca, [], name);
      builder.BuildStore(value, slot);
    }

    // Adds a block and makes it the insert point.
    method BeginBlock(name: string)
      requires Valid()
      modifies this, builder, builder.Repr
      ensures Attached() && State() == StartBlock(old(State()), name) && lastReg == old(lastReg)
    {
      var b := builder.AddBlock(name);
      builder.SetBlock(b);
    }

    // Falls into a new block.
    method EnterBlock(name: string)
      requires Valid()
      modifies this, builder, builder.Repr
      ensures Attached() && State() == StartBlock(EmitBranch(old(State()), name), name)
    {
      builder.BuildBranch(name);
      BeginBlock(name);
    }

    // Ends a condition block and starts the block taken when the condition holds.
    method EndTest(cond: RegID, bodyName: string, exit: string)
      requires Valid()
      modifies this, builder, builder.Repr
      ensures Attached() && State() == StartBlock(EmitCondBranch(old(State()), cond, bodyName, exit), bodyName)
    {
      builder.BuildCondBranch(cond, bodyName, exit);
      BeginBlock(bodyName);
    }

    // The end of a branch of a structured statement and the block after it.
    method CloseBranch(target: string, name: string)
      requires Valid()
      modifies this, builder, builder.Repr
      ensures Attached() && State() == Close(old(State()), target, name)
    {
      if !builder.Terminated() {
        builder.BuildBranch(target);
      }
      BeginBlock(name);
    }

    method VisitVarDecl(x: string, init: Option<Expr>)
      requires Valid()
      modifies this, builder, builder.Repr
      ensures Attached() && State() == GenVarDecl(x, init, old(State()))
    {
      var slot := builder.BuildValue(Alloca, [], x);
      varSlots := varSlots[x := slot];
      if init.Some? {
        VisitExpr(init.value);
        builder.BuildStore(lastReg, slot);
      }
    }

    method VisitReturn(result: Option<Expr>)
      requires Valid()
      modifies this, builder, builder.Repr
      ensures Attached() && State() == GenReturn(result, old(State()))
    {
      if result.Some? {
        VisitExpr(result.value);
        builder.BuildRet(lastReg);
      } else {
        builder.BuildRet(NO_REG);
      }
      var dead := builder.NewLabel(AfterRet);
      BeginBlock(dead);
    }

    method VisitStmt(s: Stmt)
      requires Valid()
      modifies this, builder, builder.Repr
      ensures Attached() && State() == GenStmt(s, old(State()))
      decreases s, 2
    {
      match s
      case Block(ss) => VisitStmts(ss);
      case ExprStmt(e) => VisitExpr(e);
      case VarDecl(_, x, init) => VisitVarDecl(x, init);
      case Return(result) => VisitReturn(result);
      case If(_, _, _) => VisitIf(s);
      case While(c, body) => VisitLoop(c, body, WHILE_LABELS);
      case Vloop(c, body) =>
        if c.IntLit? {
          VisitCounted(s);
        } else {
          VisitLoop(c, body, VLOOP_LABELS);
        }
      case For(_, _, _) => VisitFor(s);
      case Break =>
      case Continue =>
      case Match(_, _) => VisitMatch(s);
    }

    method VisitStmts(ss: seq<Stmt>)
      requires Valid()
      modifies this, builder, builder.Repr
      ensures Attached() && State() == GenStmts(ss, old(State()))
      decreases ss, 0
    {
      ghost var all := GenStmts(ss, State());
      for i := 0 to |ss|
        invariant Attached() && all == GenStmts(ss[i..], State())
      {
        assert ss[i..][1..] == ss[i + 1..];
        VisitStmt(ss[i]);
      }
    }

    method IfNames(hasElse: bool) returns (thenName: string, elseName: string, merge: string)
      requires Valid()
      modifies this, builder, builder.Repr
      ensures Attached() && State() == TakeLabels(old(State()), if hasElse then 3 else 2)
      ensures var n := old(State()).labels;
              && thenName == MakeLabel(Then, n)
              && (hasElse ==> elseName == MakeLabel(Else, n + 1))
              && merge == MakeLabel(Merge, n + if hasElse then 2 else 1)
    {
      thenName := builder.NewLabel(Then);
      elseName := "";
      if hasElse {
        elseName := builder.NewLabel(Else);
      }
      merge := builder.NewLabel(Merge);
    }

    // The condition of an if and the start of the then block.
    method VisitThenHead(c: Expr, hasElse: bool) returns (elseName: string, merge: string)
      requires Valid()
      modifies this, builder, builder.Repr
      ensures Attached() && State() == ThenHead(c, hasElse, old(State()))
      ensures var n := IfLabels(c, old(State()));
              (hasElse ==> elseName == MakeLabel(Else, n + 1)) &&
              merge == MakeLabel(Merge, n + if hasElse then 2 else 1)
    {
      VisitExpr(c);
      elseName, merge := TestThen(lastReg, hasElse);
    }

    method TestThen(cond: RegID, hasElse: bool) returns (elseName: string, merge: string)
      requires Valid()
      modifies this, builder, builder.Repr
      ensures Attached()
      ensures var n, other := old(State()).labels, if hasElse then elseName else merge;
              && (hasElse ==> elseName == MakeLabel(Else, n + 1))
              && merge == MakeLabel(Merge, n + if hasElse then 2 else 1)
              && State() == StartBlock(EmitCondBranch(TakeLabels(old(State()), if hasElse then 3 else 2), cond,
                                                      MakeLabel(Then, n), other),
                                       MakeLabel(Then, n))
    {
      var thenName;
      thenName, elseName, merge := IfNames(hasElse);
      EndTest(cond, thenName, if hasElse then elseName else merge);
    }

    // A branch of a structured statement, its end, and the block after it.
    method VisitBranch(s: Stmt, target: string, name: string)
      requires Valid()
      modifies this, builder, builder.Repr
      ensures Attached() && State() == Close(GenStmt(s, old(State())), target, name)
      decreases s, 3
    {
      VisitStmt(s);
      CloseBranch(target, name);
    }

    method VisitIf(s: Stmt)
      requires Valid() && s.If?
      modifies this, builder, builder.Repr
      ensures Attached() && State() == GenStmt(s, old(State()))
      decreases s, 1
    {
      ghost var g, n := State(), IfLabels(s.cond, State());
      var elseName, merge := VisitThenHead(s.cond, s.elseBranch.Some?);
      VisitBranches(s, elseName, merge);
      if s.elseBranch.Some? {
        IfElseIs(s, s.elseBranch.value, g, n, elseName, merge);
      } else {
        IfIs(s, g, n, merge);
      }
    }

    method VisitBranches(s: Stmt, elseName: string, merge: string)
      requires Valid() && s.If?
      modifies this, builder, builder.Repr
      ensures Attached()
      ensures s.elseBranch.None? ==> State() == Close(GenStmt(s.thenBranch, old(State())), merge, merge)
      ensures s.elseBranch.Some? ==>
        State() == Close(GenStmt(s.elseBranch.value, Close(GenStmt(s.thenBranch, old(State())), merge, elseName)),
                         merge, merge)
      decreases s, 0
    {
      if s.elseBranch.Some? {
        VisitBranch(s.thenBranch, merge, elseName);
        VisitBranch(s.elseBranch.value, merge, merge);
      } else {
        VisitBranch(s.thenBranch, merge, merge);
      }
    }

    method LoopNames(ls: LoopLabels) returns (cond: string, bodyName: string, exit: string)
      requires Valid()
      modifies this, builder, builder.Repr
      ensures Attached() && State() == TakeLabels(old(State()), 3)
      ensures var n := old(State()).labels;
              cond == MakeLabel(ls.cond, n) && bodyName == MakeLabel(ls.body, n + 1) &&
                exit == MakeLabel(ls.exit, n + 2)
    {
      cond := builder.NewLabel(ls.cond);
      bodyName := builder.NewLabel(ls.body);
      exit := builder.NewLabel(ls.exit);
    }

    method VisitLoopHead(c: Expr, ls: LoopLabels) returns (cond: string, exit: string)
      requires Valid()
      modifies this, builder, builder.Repr
      ensures Attached()
      ensures var n := old(State()).labels;
              && cond == MakeLabel(ls.cond, n) && exit == MakeLabel(ls.exit, n + 2)
              && State() == LoopHead(c, cond, MakeLabel(ls.body, n + 1), exit, old(State()))
    {
      var bodyName;
      cond, bodyName, exit := LoopNames(ls);
      EnterBlock(cond);
      VisitExpr(c);
      EndTest(lastReg, bodyName, exit);
    }

    method VisitLoop(c: Expr, body: Stmt, ls: LoopLabels)
      requires Valid()
      modifies this, builder, builder.Repr
      ensures Attached() && State() == GenLoop(c, body, ls, old(State()))
      decreases body, 4
    {
      ghost var g := State();
      var cond, exit := VisitLoopHead(c, ls);
      VisitBranch(body, cond, exit);
      LoopIs(c, body, ls, g, cond, MakeLabel(ls.body, g.labels + 1), exit);
    }

    method VisitCounterInit() returns (slot: RegID, cond: string, bodyName: string, exit: string)
      requires Valid()
      modifies this, builder, builder.Repr
      ensures Attached() && ExprGen(State(), slot) == CounterInit(old(State()))
      ensures var n := old(State()).labels;
              cond == MakeLabel(VloopCond, n + 1) && bodyName == MakeLabel(VloopBody, n + 2) &&
                exit == MakeLabel(VloopExit, n + 3)
    {
      var counterSlot;
      counterSlot, cond, bodyName, exit := CounterNames();
      slot := builder.BuildValue(Alloca, [], counterSlot);
      var zero := builder.BuildValue(Copy, [IntImm(0)], "");
      builder.BuildStore(zero, slot);
    }

    method CounterNames() returns (counterSlot: string, cond: string, bodyName: string, exit: string)
      requires Valid()
      modifies this, builder, builder.Repr
      ensures Attached() && State() == TakeLabels(old(State()), 4)
      ensures var n := old(State()).labels;
              && counterSlot == MakeLabel(VloopCounter, n) && cond == MakeLabel(VloopCond, n + 1)
              && bodyName == MakeLabel(VloopBody, n + 2) && exit == MakeLabel(VloopExit, n + 3)
    {
      counterSlot := builder.NewLabel(VloopCounter);
      cond := builder.NewLabel(VloopCond);
      bodyName := builder.NewLabel(VloopBody);
      exit := builder.NewLabel(VloopExit);
    }

    method VisitCounterHead(limit: int, slot: RegID, cond: string, bodyName: string, exit: string)
      requires Valid()
      modifies this, builder, builder.Repr
      ensures Attached() && State() == CounterHead(limit, slot, cond, bodyName, exit, old(State()))
    {
      EnterBlock(cond);
      var cur := builder.BuildValue(Load, [Reg(slot)], "");
      var lim := builder.BuildValue(Copy, [IntImm(limit)], "");
      var cmp := builder.BuildValue(CmpLt, [Reg(cur), Reg(lim)], "");
      EndTest(cmp, bodyName, exit);
    }

    method VisitCounterStep(slot: RegID, cond: string, exit: string)
      requires Valid()
      modifies this, builder, builder.Repr
      ensures Attached() && State() == CounterStep(slot, cond, exit, old(State()))
    {
      if !builder.Terminated() {
        Increment(slot);
        builder.BuildBranch(cond);
      }
      BeginBlock(exit);
    }

    method Increment(slot: RegID)
      requires Valid()
      modifies this, builder, builder.Repr
      ensures Attached()
      ensures var cur := Build(old(State()), Load, [Reg(slot)], "");
              var one := Build(cur.g, Copy, [IntImm(1)], "");
              var inc := Build(one.g, Opcode.Add, [Reg(cur.reg), Reg(one.reg)], "");
              State() == EmitStore(inc.g, inc.reg, slot)
    {
      var cur := builder.BuildValue(Load, [Reg(slot)], "");
      var one := builder.BuildValue(Copy, [IntImm(1)], "");
      var inc := builder.BuildValue(Opcode.Add, [Reg(cur), Reg(one)], "");
      builder.BuildStore(inc, slot);
    }

    method VisitCounted(s: Stmt)
      requires Valid() && s.Vloop? && s.cond.IntLit?
      modifies this, builder, builder.Repr
      ensures Attached() && State() == GenStmt(s, old(State()))
      decreases s, 1
    {
      ghost var g := State();
      var slot, cond, bodyName, exit := VisitCounterInit();
      VisitCounterLoop(s, slot, cond, bodyName, exit);
      CountedIs(s, g, g.labels, cond, bodyName, exit);
    }

    method VisitCounterLoop(s: Stmt, slot: RegID, cond: string, bodyName: string, exit: string)
      requires Valid() && s.Vloop? && s.cond.IntLit?
      modifies this, builder, builder.Repr
      ensures Attached()
      ensures var at := CounterHead(s.cond.value, slot, cond, bodyName, exit, old(State()));
              State() == CounterStep(slot, cond, exit, GenStmt(s.body, at))
      decreases s, 0
    {
      VisitCounterHead(s.cond.value, slot, cond, bodyName, exit);
      VisitStmt(s.body);
      VisitCounterStep(slot, cond, exit);
    }

    method VisitForInit(x: string, iterable: Expr) returns (iterSlot: RegID)
      requires Valid()
      modifies this, builder, builder.Repr
      ensures Attached() && ExprGen(State(), iterSlot) == ForInit(x, iterable, old(State()))
    {
      var slot := builder.BuildValue(Alloca, [], x);
      varSlots := varSlots[x := slot];
      VisitExpr(iterable);
      iterSlot := StoreInNewSlot(lastReg, "__iter");
    }

    method VisitForTest(iterSlot: RegID) returns (cond: string, exit: string)
      requires Valid()
      modifies this, builder, builder.Repr
      ensures Attached()
      ensures var g := old(State());
              && cond == MakeLabel(ForCond, g.labels) && exit == MakeLabel(ForExit, g.labels + 2)
              && State() == ForTest(iterSlot, cond, MakeLabel(ForBody, g.labels + 1), exit, g)
    {
      var bodyName;
      cond, bodyName, exit := LoopNames(FOR_LABELS);
      EnterBlock(cond);
      var iterCur := builder.BuildValue(Load, [Reg(iterSlot)], "");
      EndTest(iterCur, bodyName, exit);
    }

    method VisitForHead(x: string, iterable: Expr) returns (cond: string, exit: string)
      requires Valid()
      modifies this, builder, builder.Repr
      ensures Attached() && State() == ForHead(x, iterable, old(State()))
      ensures var n := ForInit(x, iterable, old(State())).g.labels;
              cond == MakeLabel(ForCond, n) && exit == MakeLabel(ForExit, n + 2)
    {
      var iterSlot := VisitForInit(x, iterable);
      cond, exit := VisitForTest(iterSlot);
    }

    method VisitFor(s: Stmt)
      requires Valid() && s.For?
      modifies this, builder, builder.Repr
      ensures Attached() && State() == GenStmt(s, old(State()))
      decreases s, 1
    {
      var cond, exit := VisitForHead(s.variable, s.iterable);
      VisitBranch(s.body, cond, exit);
    }

    method VisitArmHead(pattern: Option<Expr>, subject: RegID, bodyName: string, nextName: string)
      requires Valid()
      modifies this, builder, builder.Repr
      ensures Attached() && State() == ArmHead(pattern, subject, bodyName, nextName, old(State()))
    {
      if pattern.None? {
        builder.BuildBranch(bodyName);
      } else {
        VisitExpr(pattern.value);
        var patternReg := lastReg;
        var cmpReg := builder.BuildValue(CmpEq, [Reg(subject), Reg(patternReg)], "");
        builder.BuildCondBranch(cmpReg, bodyName, nextName);
      }
      BeginBlock(bodyName);
    }

    method VisitMatch(s: Stmt)
      requires Valid() && s.Match?
      modifies this, builder, builder.Repr
      ensures Attached() && State() == GenStmt(s, old(State()))
      decreases s, 1
    {
      ghost var g := State();
      VisitExpr(s.subject);
      var subj := lastReg;
      var exit := builder.NewLabel(MatchExit);
      VisitArms(s.arms, subj, exit);
      CloseBranch(exit, exit);
      MatchIs(s, g, GenExpr(s.subject, g), exit);
    }

    method ArmNames(last: bool, exit: string) returns (bodyName: string, nextName: string)
      requires Valid()
      modifies this, builder, builder.Repr
      ensures Attached() && State() == TakeLabels(old(State()), if last then 1 else 2)
      ensures var n := old(State()).labels;
              bodyName == MakeLabel(ArmBody, n) && nextName == if last then exit else MakeLabel(ArmNext, n + 1)
    {
      bodyName := builder.NewLabel(ArmBody);
      nextName := exit;
      if !last {
        nextName := builder.NewLabel(ArmNext);
      }
    }

    // The test and the body of an arm; nextName is where its successor starts.
    method VisitArm(arm: MatchArm, subj: RegID, last: bool, exit: string) returns (nextName: string)
      requires Valid()
      modifies this, builder, builder.Repr
      ensures Attached()
      ensures nextName == NextArm(last, exit, old(State())) && State() == ArmDone(arm, subj, last, exit, old(State()))
      decreases arm, 0
    {
      var bodyName;
      bodyName, nextName := ArmNames(last, exit);
      VisitArmHead(arm.pattern, subj, bodyName, nextName);
      VisitStmt(arm.body);
    }

    // Arm i of the chain; a wildcard ends it.
    method VisitArmAt(arms: seq<MatchArm>, i: nat, subj: RegID, exit: string) returns (wild: bool)
      requires Valid() && i < |arms|
      modifies this, builder, builder.Repr
      ensures Attached()
      ensures var all := GenArms(arms[i..], subj, exit, old(State()));
              if wild then State() == all else GenArms(arms[i + 1..], subj, exit, State()) == all
      decreases arms, 0
    {
      assert arms[i..][1..] == arms[i + 1..];
      ArmsUnfold(arms[i..], subj, exit, State());
      var nextName := VisitArm(arms[i], subj, i + 1 == |arms|, exit);
      wild := arms[i].pattern.None?;
      if wild {
        builder.BuildBranchIfOpen(exit);
      } else {
        CloseBranch(exit, nextName);
      }
    }

    method VisitArms(arms: seq<MatchArm>, subj: RegID, exit: string)
      requires Valid()
      modifies this, builder, builder.Repr
      ensures Attached() && State() == GenArms(arms, subj, exit, old(State()))
      decreases arms, 1
    {
      ghost var all := GenArms(arms, subj, exit, State());
      var i := 0;
      while i < |arms|
        invariant i <= |arms| && Attached() && all == GenArms(arms[i..], subj, exit, State())
      {
        var wild := VisitArmAt(arms, i, subj, exit);
        if wild {
          return;
        }
        i := i + 1;
      }
    }

    method VisitParam(x: string, i: nat)
      requires Valid()
      modifies this, builder, builder.Repr
      ensures Attached() && State() == GenParam(x, i, old(State()))
    {
      var slot := builder.BuildValue(Alloca, [], x);
      var incoming := builder.BuildValue(Param, [IntImm(i)], "");
      builder.BuildStore(incoming, slot);
      varSlots := varSlots[x := slot];
    }

    method VisitParams(params: seq<string>)
      requires Valid()
      modifies this, builder, builder.Repr
      ensures Attached() && State() == GenParams(params, 0, old(State()))
    {
      ghost var all := GenParams(params, 0, State());
      for i := 0 to |params|
        invariant Attached() && all == GenParams(params[i..], i, State())
      {
        assert params[i..][1..] == params[i + 1..];
        VisitParam(params[i], i);
      }
    }

    method VisitBody(f: FunctionDecl)
      requires Valid() && State() == EMPTY
      modifies this, builder, builder.Repr
      ensures Attached() && State().Blocks() == GenFunction(f)
    {
      VisitParams(f.params);
      if f.body.Some? {
        VisitStmt(f.body.value);
      }
      if !builder.Terminated() {
        builder.BuildRet(NO_REG);
      }
    }

    // Attaches to a new function of the module, at its empty entry block.
    method Begin(name: string, m: IRModule) returns (irFn: IRFunction)
      requires builder.fn == null
      modifies this, builder, m
      ensures Valid() && State() == EMPTY && builder.fn == irFn
      ensures fresh(irFn) && fresh(builder.Repr - {builder}) && irFn.name == name
      ensures m.functions == old(m.functions) + [irFn]
    {
      irFn := m.AddFunction(name);
      var entry := irFn.AddBlock(ENTRY);
      builder.Reset(irFn, entry);
      varSlots := map[];
    }

    // A function in, its blocks out; the generator is detached again afterwards.
    method VisitFunction(f: FunctionDecl, m: IRModule)
      requires builder.fn == null
      modifies this, builder, m
      ensures builder.fn == null
      ensures |m.functions| == |old(m.functions)| + 1 && m.functions[..|old(m.functions)|] == old(m.functions)
      ensures var irFn := m.functions[|old(m.functions)|];
              && fresh(irFn) && irFn.name == f.name && fresh(irFn.blocks)
              && ViewOf(irFn.blocks) == GenFunction(f)
    {
      var irFn := Begin(f.name, m);
      VisitBody(f);
      builder.ViewIsGen();
      builder.Detach();
    }
  }

  // A module's functions in declaration order.
  method Generate(decls: seq<FunctionDecl>) returns (m: IRModule)
    ensures fresh(m) && |m.functions| == |decls|
    ensures forall i :: 0 <= i < |decls| ==>
              m.functions[i].name == decls[i].name && ViewOf(m.functions[i].blocks) == GenFunction(decls[i])
  {
    var gen := new IRGen();
    m := new IRModule();
    for i := 0 to |decls|
      invariant fresh(m) && fresh(gen) && fresh(gen.builder) && gen.builder.fn == null
      invariant |m.functions| == i
      invariant forall j :: 0 <= j < i ==>
                  m.functions[j].name == decls[j].name && ViewOf(m.functions[j].blocks) == GenFunction(decls[j])
    {
      gen.VisitFunction(decls[i], m);
    }
  }
}
