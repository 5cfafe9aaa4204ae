// What IRGen emits, as functions over the generation state. The classes IRBuilder and
// IRGen are proved to compute exactly these functions; every property of the generated
// code is proved about them.
module Codegen {
  import opened Common
  import opened Ast
  import opened Ir
  import opened Labels

  // The function under construction. The blocks in `done` precede the current block,
  // which is the last one and consists of `here` and `code`. `regs` and `labels` are the
  // counters of IRFunction and IRBuilder, `slots` is IRGen's flat map from a variable
  // name to the register of its stack slot.
  datatype Gen = Gen(
    done: seq<BasicBlock>, here: string, code: seq<Instr>,
    regs: nat, labels: nat, slots: map<string, RegID>)
  {
    function Blocks(): seq<BasicBlock> {
      done + [BasicBlock(here, code)]
    }
  }

  // The state after visiting an expression together with IRGen's lastReg_.
  datatype ExprGen = ExprGen(g: Gen, reg: RegID)
  datatype ArgsGen = ArgsGen(g: Gen, regs: seq<RegID>)

  function Append(g: Gen, i: Instr): Gen {
    g.(code := g.code + [i])
  }

  // Every build function that yields a value takes a fresh register for it.
  function Build(g: Gen, op: Opcode, operands: seq<Operand>, tag: string): ExprGen {
    var r := g.regs + 1;
    ExprGen(Append(g.(regs := r), Instr(op, r, operands, tag)), r)
  }

  function EmitStore(g: Gen, value: RegID, ptr: RegID): Gen {
    Append(g, Instr(Opcode.Store, NO_REG, [Reg(value), Reg(ptr)], ""))
  }

  function EmitRet(g: Gen, value: RegID): Gen {
    Append(g, Instr(Opcode.Ret, NO_REG, if value == NO_REG then [] else [Reg(value)], ""))
  }

  function EmitBranch(g: Gen, target: string): Gen {
    Append(g, Instr(Opcode.Branch, NO_REG, [], target))
  }

  function EmitCondBranch(g: Gen, cond: RegID, t: string, f: string): Gen {
    Append(g, Instr(Opcode.CondBranch, NO_REG, [Reg(cond)], JoinTargets(t, f)))
  }

  // setBlock(addBlock(label))
  function StartBlock(g: Gen, name: string): Gen {
    g.(done := g.Blocks(), here := name, code := [])
  }

  function BranchIfOpen(g: Gen, target: string): Gen {
    if IsTerminated(g.code) then g else EmitBranch(g, target)
  }

  // The end of a branch of a structured statement, and the block that follows it.
  function Close(g: Gen, target: string, name: string): Gen {
    StartBlock(BranchIfOpen(g, target), name)
  }

  function TakeLabels(g: Gen, n: nat): Gen {
    g.(labels := g.labels + n)
  }

  function Bind(g: Gen, x: string, slot: RegID): Gen {
    g.(slots := g.slots[x := slot])
  }

  function BinaryOpcode(op: BinaryOp): Opcode {
    match op
    case Add => Opcode.Add
    case Sub => Opcode.Sub
    case Mul => Opcode.Mul
    case Div => Opcode.Div
    case Mod => Opcode.Mod
    case Eq => CmpEq
    case NotEq => CmpNe
    case Lt => CmpLt
    case Gt => CmpGt
    case LtEq => CmpLe
    case GtEq => CmpGe
    case And => LogAnd
    case Or => LogOr
    case BitAnd => Opcode.BitAnd
    case BitOr => Opcode.BitOr
    case BitXor => Opcode.BitXor
    case Shl => Opcode.Shl
    case Shr => Opcode.Shr
  }

  function UnaryOpcode(op: UnaryOp): Opcode {
    match op
    case Neg => Opcode.Neg
    case Not => LogNot
    case BitNot => Opcode.BitNot
    case Deref => Copy
    case AddrOf => Copy
  }

  // `=` is handled separately and never reaches the opcode switch.
  function AssignOpcode(op: AssignOp): Opcode {
    match op
    case Assign => Opcode.Add
    case AddAssign => Opcode.Add
    case SubAssign => Opcode.Sub
    case MulAssign => Opcode.Mul
    case DivAssign => Opcode.Div
    case ModAssign => Opcode.Mod
    case BitAndAssign => Opcode.BitAnd
    case BitOrAssign => Opcode.BitOr
    case BitXorAssign => Opcode.BitXor
  }

  function GenIdent(x: string, g: Gen): ExprGen {
    if IsBareCall(x) then Build(g, Opcode.Call, [], x)
    else if x in g.slots then Build(g, Load, [Reg(g.slots[x])], "")
    else Build(g, Load, [], x)
  }

  function RegOperands(regs: seq<RegID>): seq<Operand> {
    seq(|regs|, i requires 0 <= i < |regs| => Reg(regs[i]))
  }

  // The store that ends an assignment; a target without a slot gets none.
  function StoreTo(g: Gen, target: Expr, value: RegID): Gen {
    if target.Ident? && target.name in g.slots then EmitStore(g, value, g.slots[target.name]) else g
  }

  function GenExpr(e: Expr, g: Gen): ExprGen
    decreases e, 0
  {
    match e
    case IntLit(v) => Build(g, Copy, [IntImm(v)], "")
    case FloatLit(t) => Build(g, Copy, [FloatImm(t)], "")
    case StringLit(t) => Build(g, Copy, [StringRef(t)], "")
    case CharLit(c) => Build(g, Copy, [IntImm(c)], "")
    case BoolLit(b) => Build(g, Copy, [BoolImm(b)], "")
    case NilLit => Build(g, Copy, [IntImm(0)], "nil")
    case Ident(x) => GenIdent(x, g)
    case Binary(op, l, r) =>
      var a := GenExpr(l, g);
      var b := GenExpr(r, a.g);
      Build(b.g, BinaryOpcode(op), [Reg(a.reg), Reg(b.reg)], "")
    case Unary(op, x) =>
      var a := GenExpr(x, g);
      if op.Deref? then Build(a.g, Load, [Reg(a.reg)], "")
      else if op.AddrOf? then a
      else Build(a.g, UnaryOpcode(op), [Reg(a.reg)], "")
    case AssignExpr(op, target, value) =>
      if op.Assign? then
        var a := GenExpr(value, g);
        ExprGen(StoreTo(a.g, target, a.reg), a.reg)
      else
        var a := GenExpr(target, g);
        var b := GenExpr(value, a.g);
        var c := Build(b.g, AssignOpcode(op), [Reg(a.reg), Reg(b.reg)], "");
        ExprGen(StoreTo(c.g, target, c.reg), c.reg)
    case Call(callee, args) =>
      if callee.Ident? then
        var a := GenArgs(args, g);
        Build(a.g, Opcode.Call, RegOperands(a.regs), callee.name)
      else
        var f := GenExpr(callee, g);
        var a := GenArgs(args, f.g);
        Build(a.g, Opcode.Call, RegOperands(a.regs), "%" + Decimal(f.reg))
    case Index(base, index) =>
      var a := GenExpr(base, g);
      var b := GenExpr(index, a.g);
      Build(b.g, Opcode.Add, [Reg(a.reg), Reg(b.reg)], "")
    case Member(obj, field) =>
      var a := GenExpr(obj, g);
      Build(a.g, Load, [], field)
    case Cast(x, _) =>
      var a := GenExpr(x, g);
      Build(a.g, Opcode.Cast, [Reg(a.reg)], "?")
    case ArrayLit(es) => GenElements(es, 0, NO_REG, g)
  }

  function GenArgs(args: seq<Expr>, g: Gen): ArgsGen
    decreases args, 0
  {
    if args == [] then ArgsGen(g, [])
    else
      var a := GenExpr(args[0], g);
      var rest := GenArgs(args[1..], a.g);
      ArgsGen(rest.g, [a.reg] + rest.regs)
  }

  // The elements from number i on; `first` is the slot of element 0 once it exists.
  function GenElements(es: seq<Expr>, i: nat, first: RegID, g: Gen): ExprGen
    decreases es, 0
  {
    if es == [] then ExprGen(g, first)
    else
      var a := GenExpr(es[0], g);
      var slot := Build(a.g, Alloca, [], "__arr_" + Decimal(i));
      var g1 := EmitStore(slot.g, a.reg, slot.reg);
      GenElements(es[1..], i + 1, if i == 0 then slot.reg else first, g1)
  }

  function IfLabels(c: Expr, g: Gen): nat {
    GenExpr(c, g).g.labels
  }

  // The condition of an if, the branch on it, and the start of the then block.
  function ThenHead(c: Expr, hasElse: bool, g: Gen): Gen {
    var x := GenExpr(c, g);
    var n := x.g.labels;
    var other := MakeLabel(if hasElse then Else else Merge, n + 1);
    var test := EmitCondBranch(TakeLabels(x.g, if hasElse then 3 else 2), x.reg, MakeLabel(Then, n), other);
    StartBlock(test, MakeLabel(Then, n))
  }

  // A while loop, and a vloop whose condition is not an integer literal, differ only in
  // the spelling of their labels.
  datatype LoopLabels = LoopLabels(cond: LabelKind, body: LabelKind, exit: LabelKind)
  const WHILE_LABELS := LoopLabels(WhileCond, WhileBody, WhileExit)
  const VLOOP_LABELS := LoopLabels(VloopCond, VloopBody, VloopExit)
  const FOR_LABELS := LoopLabels(ForCond, ForBody, ForExit)

  // Up to the point where the body is visited.
  function LoopHead(c: Expr, cond: string, bodyName: string, exit: string, g: Gen): Gen {
    var atCond := StartBlock(EmitBranch(TakeLabels(g, 3), cond), cond);
    var x := GenExpr(c, atCond);
    StartBlock(EmitCondBranch(x.g, x.reg, bodyName, exit), bodyName)
  }

  // The hidden counter of vloop(N): a slot holding 0.
  function CounterInit(g: Gen): ExprGen {
    var slot := Build(TakeLabels(g, 4), Alloca, [], MakeLabel(VloopCounter, g.labels));
    var zero := Build(slot.g, Copy, [IntImm(0)], "");
    ExprGen(EmitStore(zero.g, zero.reg, slot.reg), slot.reg)
  }

  // counter < limit, then the body block.
  function CounterHead(limit: int, slot: RegID, cond: string, bodyName: string, exit: string, g: Gen): Gen {
    var atCond := StartBlock(EmitBranch(g, cond), cond);
    var cur := Build(atCond, Load, [Reg(slot)], "");
    var lim := Build(cur.g, Copy, [IntImm(limit)], "");
    var cmp := Build(lim.g, CmpLt, [Reg(cur.reg), Reg(lim.reg)], "");
    StartBlock(EmitCondBranch(cmp.g, cmp.reg, bodyName, exit), bodyName)
  }

  // counter = counter + 1, back to the test, then the exit block.
  function CounterStep(slot: RegID, cond: string, exit: string, g: Gen): Gen {
    var g1 :=
      if IsTerminated(g.code) then g
      else
        var cur := Build(g, Load, [Reg(slot)], "");
        var one := Build(cur.g, Copy, [IntImm(1)], "");
        var inc := Build(one.g, Opcode.Add, [Reg(cur.reg), Reg(one.reg)], "");
        EmitBranch(EmitStore(inc.g, inc.reg, slot), cond);
    StartBlock(g1, exit)
  }

  // The slots of a for loop's variable and of its iterator.
  function ForInit(x: string, iterable: Expr, g: Gen): ExprGen {
    var slot := Build(g, Alloca, [], x);
    var it := GenExpr(iterable, Bind(slot.g, x, slot.reg));
    var iter := Build(it.g, Alloca, [], "__iter");
    ExprGen(EmitStore(iter.g, it.reg, iter.reg), iter.reg)
  }

  // The condition block of a for loop tests the iterator cell.
  function ForTest(iter: RegID, cond: string, bodyName: string, exit: string, g: Gen): Gen {
    var atCond := StartBlock(EmitBranch(TakeLabels(g, 3), cond), cond);
    var cur := Build(atCond, Load, [Reg(iter)], "");
    StartBlock(EmitCondBranch(cur.g, cur.reg, bodyName, exit), bodyName)
  }

  function ForHead(x: string, iterable: Expr, g: Gen): Gen {
    var init := ForInit(x, iterable, g);
    var n := init.g.labels;
    ForTest(init.reg, MakeLabel(ForCond, n), MakeLabel(ForBody, n + 1), MakeLabel(ForExit, n + 2), init.g)
  }

  // The test of one match arm, then its body block.
  function ArmHead(pattern: Option<Expr>, subject: RegID, bodyName: string, nextName: string, g: Gen): Gen {
    match pattern
    case None => StartBlock(EmitBranch(g, bodyName), bodyName)
    case Some(p) =>
      var x := GenExpr(p, g);
      var cmp := Build(x.g, CmpEq, [Reg(subject), Reg(x.reg)], "");
      StartBlock(EmitCondBranch(cmp.g, cmp.reg, bodyName, nextName), bodyName)
  }

  function GenReturn(result: Option<Expr>, g: Gen): Gen {
    var g1 :=
      match result
      case None => EmitRet(g, NO_REG)
      case Some(e) =>
        var a := GenExpr(e, g);
        EmitRet(a.g, a.reg);
    StartBlock(TakeLabels(g1, 1), MakeLabel(AfterRet, g1.labels))
  }

  function GenVarDecl(x: string, init: Option<Expr>, g: Gen): Gen {
    var slot := Build(g, Alloca, [], x);
    var g1 := Bind(slot.g, x, slot.reg);
    match init
    case None => g1
    case Some(e) =>
      var a := GenExpr(e, g1);
      EmitStore(a.g, a.reg, slot.reg)
  }

  function GenStmt(s: Stmt, g: Gen): Gen
    decreases s, 0
  {
    match s
    case Block(ss) => GenStmts(ss, g)
    case ExprStmt(e) => GenExpr(e, g).g
    case VarDecl(_, x, init) => GenVarDecl(x, init, g)
    case Return(result) => GenReturn(result, g)
    case If(c, t, None) =>
      var merge := MakeLabel(Merge, IfLabels(c, g) + 1);
      Close(GenStmt(t, ThenHead(c, false, g)), merge, merge)
    case If(c, t, Some(f)) =>
      var other := MakeLabel(Else, IfLabels(c, g) + 1);
      var merge := MakeLabel(Merge, IfLabels(c, g) + 2);
      var atElse := Close(GenStmt(t, ThenHead(c, true, g)), merge, other);
      Close(GenStmt(f, atElse), merge, merge)
    case While(c, body) =>
      GenLoop(c, body, WHILE_LABELS, g)
    case Vloop(c, body) =>
      if c.IntLit? then
        var init := CounterInit(g);
        var n := g.labels;
        var cond, exit := MakeLabel(VloopCond, n + 1), MakeLabel(VloopExit, n + 3);
        var atBody := CounterHead(c.value, init.reg, cond, MakeLabel(VloopBody, n + 2), exit, init.g);
        CounterStep(init.reg, cond, exit, GenStmt(body, atBody))
      else
        GenLoop(c, body, VLOOP_LABELS, g)
    case For(x, iterable, body) =>
      var n := ForInit(x, iterable, g).g.labels;
      Close(GenStmt(body, ForHead(x, iterable, g)), MakeLabel(ForCond, n), MakeLabel(ForExit, n + 2))
    case Break => g
    case Continue => g
    case Match(subject, arms) =>
      var x := GenExpr(subject, g);
      var exit := MakeLabel(MatchExit, x.g.labels);
      Close(GenArms(arms, x.reg, exit, TakeLabels(x.g, 1)), exit, exit)
  }

  function GenLoop(c: Expr, body: Stmt, ls: LoopLabels, g: Gen): Gen
    decreases body, 1
  {
    var n := g.labels;
    var cond, exit := MakeLabel(ls.cond, n), MakeLabel(ls.exit, n + 2);
    Close(GenStmt(body, LoopHead(c, cond, MakeLabel(ls.body, n + 1), exit, g)), cond, exit)
  }

  function GenStmts(ss: seq<Stmt>, g: Gen): Gen
    decreases ss, 0
  {
    if ss == [] then g else GenStmts(ss[1..], GenStmt(ss[0], g))
  }

  // The block behind an arm that does not match.
  function NextArm(last: bool, exit: string, g: Gen): string {
    if last then exit else MakeLabel(ArmNext, g.labels + 1)
  }

  // The remaining arms. The last arm falls through to the exit block, and a wildcard
  // ends the chain.
  function GenArms(arms: seq<MatchArm>, subject: RegID, exit: string, g: Gen): Gen
    decreases arms, 0
  {
    if arms == [] then g
    else
      var MatchArm(pattern, body) := arms[0];
      assert (arms decreases to arms[0]) && (arms[0] decreases to body);
      var n := g.labels;
      var last := |arms| == 1;
      var bodyName := MakeLabel(ArmBody, n);
      var nextName := NextArm(last, exit, g);
      var atBody := ArmHead(pattern, subject, bodyName, nextName, TakeLabels(g, if last then 1 else 2));
      var g1 := GenStmt(body, atBody);
      if pattern.None? then BranchIfOpen(g1, exit)
      else GenArms(arms[1..], subject, exit, Close(g1, exit, nextName))
  }

  // One formal parameter: a slot, the incoming value, the store that initialises the slot.
  function GenParam(x: string, i: nat, g: Gen): Gen {
    var slot := Build(g, Alloca, [], x);
    var incoming := Build(slot.g, Param, [IntImm(i)], "");
    Bind(EmitStore(incoming.g, incoming.reg, slot.reg), x, slot.reg)
  }

  function GenParams(params: seq<string>, i: nat, g: Gen): Gen
    decreases params
  {
    if params == [] then g else GenParams(params[1..], i + 1, GenParam(params[0], i, g))
  }

  const EMPTY := Gen([], ENTRY, [], 0, 0, map[])

  function GenBody(f: FunctionDecl): Gen {
    var g := GenParams(f.params, 0, EMPTY);
    match f.body
    case None => g
    case Some(s) => GenStmt(s, g)
  }

  function GenFunction(f: FunctionDecl): seq<BasicBlock> {
    var g := GenBody(f);
    (if IsTerminated(g.code) then g else EmitRet(g, NO_REG)).Blocks()
  }
}
