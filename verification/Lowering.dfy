// From the intermediate representation to the target, one function at a time.
module Lowering {
  import opened Common
  import opened Ir
  import opened Labels
  import Llvm

  // What stays fixed while a function is lowered: the number of the target block for each
  // block name, whether the function returns nothing, and the callees already known to
  // return nothing.
  datatype Fixed = Fixed(blocks: map<string, nat>, retVoid: bool, voids: set<string>)

  // `regs` maps registers to target values; instructions go to the end of lowered[cur].
  // `failed` records a conditional branch to a block that does not exist.
  datatype Low = Low(regs: map<RegID, Llvm.Value>, lowered: seq<seq<Llvm.LInstr>>, cur: nat, next: nat, failed: bool)

  // A value together with the state after the instructions that compute it.
  datatype Built = Built(s: Low, v: Llvm.Value)

  function Put(s: Low, i: Llvm.LInstr): Low {
    if s.cur < |s.lowered| then s.(lowered := s.lowered[s.cur := s.lowered[s.cur] + [i]]) else s
  }

  function Take(s: Low): Low {
    s.(next := s.next + 1)
  }

  function SetReg(s: Low, r: RegID, v: Llvm.Value): Low {
    s.(regs := s.regs[r := v])
  }

  function Resolve(o: Operand, s: Low): Built {
    match o
    case Reg(r) => Built(s, if r in s.regs then s.regs[r] else Llvm.Undef)
    case IntImm(n) => Built(s, Llvm.Const(n))
    case FloatImm(t) => Built(s, Llvm.ConstDouble(t))
    case BoolImm(b) => Built(s, Llvm.Const(if b then 1 else 0))
    case StringRef(t) => Built(Put(Take(s), Llvm.StrPtr(s.next, t)), Llvm.Inst(s.next, Llvm.Pointer))
  }

  function ResolveAt(i: Instr, k: nat, s: Low): Built {
    if k < |i.operands| then Resolve(i.operands[k], s) else Built(s, Llvm.Undef)
  }

  function ResolveAll(os: seq<Operand>, s: Low): (Low, seq<Llvm.Value>) {
    if os == [] then (s, [])
    else
      var a := Resolve(os[0], s);
      var rest := ResolveAll(os[1..], a.s);
      (rest.0, [a.v] + rest.1)
  }

  // Widen an i1 to i64; other values stay.
  function Widen(b: Built): Built {
    if Llvm.TypeOf(b.v) == Llvm.I1 then
      Built(Put(Take(b.s), Llvm.ZExt(b.s.next, b.v)), Llvm.Inst(b.s.next, Llvm.I64))
    else b
  }

  // Narrow to i1 by comparing with 0; an i1 stays.
  function ToI1(v: Llvm.Value, s: Low): Built {
    if Llvm.TypeOf(v) == Llvm.I1 then Built(s, v)
    else Built(Put(Take(s), Llvm.ICmp(s.next, Llvm.NE, v, Llvm.Const(0))), Llvm.Inst(s.next, Llvm.I1))
  }

  function Arithmetic(op: Llvm.BinOp, a: Llvm.Value, b: Llvm.Value, s: Low): Built {
    Built(Put(Take(s), Llvm.Bin(s.next, op, a, b)), Llvm.Inst(s.next, Llvm.TypeOf(a)))
  }

  function Compare(pred: Llvm.Pred, a: Llvm.Value, b: Llvm.Value, s: Low): Built {
    Widen(Built(Put(Take(s), Llvm.ICmp(s.next, pred, a, b)), Llvm.Inst(s.next, Llvm.I1)))
  }

  function Logical(op: Llvm.BinOp, a: Llvm.Value, b: Llvm.Value, s: Low): Built {
    var l := ToI1(a, s);
    var r := ToI1(b, l.s);
    Widen(Arithmetic(op, l.v, r.v, r.s))
  }

  function LogicalNot(a: Llvm.Value, s: Low): Built {
    var x := ToI1(a, s);
    Widen(Built(Put(Take(x.s), Llvm.Not(x.s.next, x.v)), Llvm.Inst(x.s.next, Llvm.I1)))
  }

  function ArithmeticOp(op: Opcode): Option<Llvm.BinOp> {
    match op
    case Add => Some(Llvm.Add)
    case Sub => Some(Llvm.Sub)
    case Mul => Some(Llvm.Mul)
    case Div => Some(Llvm.SDiv)
    case Mod => Some(Llvm.SRem)
    case BitAnd => Some(Llvm.And)
    case BitOr => Some(Llvm.Or)
    case BitXor => Some(Llvm.Xor)
    case Shl => Some(Llvm.Shl)
    case Shr => Some(Llvm.AShr)
    case _ => None
  }

  function ComparePred(op: Opcode): Option<Llvm.Pred> {
    match op
    case CmpEq => Some(Llvm.EQ)
    case CmpNe => Some(Llvm.NE)
    case CmpLt => Some(Llvm.SLT)
    case CmpGt => Some(Llvm.SGT)
    case CmpLe => Some(Llvm.SLE)
    case CmpGe => Some(Llvm.SGE)
    case _ => None
  }

  // The instructions with two operands that define a register.
  predicate IsBinary(op: Opcode) {
    ArithmeticOp(op).Some? || ComparePred(op).Some? || op.LogAnd? || op.LogOr?
  }

  function BinaryBuilt(op: Opcode, a: Llvm.Value, b: Llvm.Value, s: Low): Built {
    if ArithmeticOp(op).Some? then Arithmetic(ArithmeticOp(op).value, a, b, s)
    else if ComparePred(op).Some? then Compare(ComparePred(op).value, a, b, s)
    else if op.LogAnd? then Logical(Llvm.And, a, b, s)
    else Logical(Llvm.Or, a, b, s)
  }

  function LowerBinary(i: Instr, s: Low): Low {
    var a := ResolveAt(i, 0, s);
    var b := ResolveAt(i, 1, a.s);
    var z := BinaryBuilt(i.op, a.v, b.v, b.s);
    SetReg(z.s, i.dest, z.v)
  }

  function UnaryBuilt(op: Opcode, a: Llvm.Value, s: Low): Built {
    if op.Neg? then Arithmetic(Llvm.Sub, Llvm.Const(0), a, s)
    else if op.BitNot? then Arithmetic(Llvm.Xor, a, Llvm.Const(-1), s)
    else LogicalNot(a, s)
  }

  function LowerUnary(i: Instr, s: Low): Low {
    var a := ResolveAt(i, 0, s);
    var z := UnaryBuilt(i.op, a.v, a.s);
    SetReg(z.s, i.dest, z.v)
  }

  predicate IsPrint(i: Instr) {
    (i.tag == "print" || i.tag == "println") && |i.operands| == 1
  }

  // exit, escape, wait and one-argument print and println are built in; they leave the
  // destination register without a value, as a void callee does.
  function LowerCall(i: Instr, f: Fixed, s: Low): Low {
    if i.tag == "exit" || i.tag == "escape" then
      var args := ResolveAll(if i.operands == [] then [] else [i.operands[0]], s);
      Put(Put(args.0, Llvm.Exit(i.tag, args.1)), Llvm.Unreachable)
    else if i.tag == "wait" then
      var args := ResolveAll(if i.operands == [] then [] else [i.operands[0]], s);
      Put(args.0, Llvm.Sleep(args.1))
    else if IsPrint(i) then
      var a := Resolve(i.operands[0], s);
      Put(a.s, Llvm.Print(i.tag, a.v))
    else
      var args := ResolveAll(i.operands, s);
      var isVoid := i.tag in f.voids;
      var s1 := Put(Take(args.0), Llvm.Call(args.0.next, i.tag, args.1, isVoid));
      if !isVoid && i.dest != NO_REG then SetReg(s1, i.dest, Llvm.Inst(args.0.next, Llvm.I64)) else s1
  }

  function LowerMemory(i: Instr, s: Low): Low {
    match i.op
    case Alloca => SetReg(Put(Take(s), Llvm.Alloca(s.next)), i.dest, Llvm.Inst(s.next, Llvm.Pointer))
    case Load =>
      if i.operands != [] then
        var a := Resolve(i.operands[0], s);
        var s1 := Put(Take(a.s), Llvm.Load(a.s.next, a.v));
        if i.dest != NO_REG then SetReg(s1, i.dest, Llvm.Inst(a.s.next, Llvm.I64)) else s1
      else if i.dest != NO_REG then SetReg(s, i.dest, Llvm.Undef)
      else s
    case Store =>
      if |i.operands| >= 2 then
        var a := Resolve(i.operands[0], s);
        var b := Resolve(i.operands[1], a.s);
        Put(b.s, Llvm.Store(a.v, b.v))
      else s
    case _ => s
  }

  function LowerJump(i: Instr, f: Fixed, s: Low): Low {
    match i.op
    case Ret =>
      if f.retVoid then Put(s, Llvm.RetVoid)
      else if i.operands == [] then Put(s, Llvm.Unreachable)
      else
        var a := Resolve(i.operands[0], s);
        Put(a.s, Llvm.Ret(a.v))
    case Branch => if i.tag in f.blocks then Put(s, Llvm.Br(f.blocks[i.tag])) else s
    case CondBranch =>
      (match SplitTargets(i.tag)
       case None => s
       case Some((t, e)) =>
         if i.operands == [] then s
         else
           var a := Resolve(i.operands[0], s);
           var c := ToI1(a.v, a.s);
           if t in f.blocks && e in f.blocks then Put(c.s, Llvm.CondBr(c.v, f.blocks[t], f.blocks[e]))
           else c.s.(failed := true))
    case _ => s
  }

  function LowerInstr(i: Instr, f: Fixed, s: Low): Low {
    if i.op.Alloca? || i.op.Load? || i.op.Store? then LowerMemory(i, s)
    else if IsTerminator(i) then LowerJump(i, f, s)
    else if i.op.Call? then LowerCall(i, f, s)
    else if i.op.Param? then
      if i.operands != [] && i.operands[0].IntImm? && i.operands[0].value >= 0
      then SetReg(s, i.dest, Llvm.Arg(i.operands[0].value)) else s
    else if i.op.Copy? || i.op.Cast? then
      if i.operands != [] && i.dest != NO_REG then
        var a := Resolve(i.operands[0], s);
        SetReg(a.s, i.dest, a.v)
      else s
    else if IsBinary(i.op) then LowerBinary(i, s)
    else if i.op.Phi? then s
    else LowerUnary(i, s)
  }

  predicate Ended(s: Low) {
    s.cur < |s.lowered| && Llvm.IsTerminated(s.lowered[s.cur])
  }

  // Nothing is lowered past a terminator.
  function LowerCode(code: seq<Instr>, f: Fixed, s: Low): Low
    decreases code
  {
    if code == [] then s
    else
      var s1 := LowerCode(code[..|code| - 1], f, s);
      if Ended(s1) then s1 else LowerInstr(code[|code| - 1], f, s1)
  }

  function Enter(b: BasicBlock, f: Fixed, s: Low): Low {
    s.(cur := if b.name in f.blocks then f.blocks[b.name] else |s.lowered|)
  }

  // A block that is still open at its end gets a terminator.
  function Leave(f: Fixed, s: Low): Low {
    if Ended(s) then s else Put(s, if f.retVoid then Llvm.RetVoid else Llvm.Unreachable)
  }

  function LowerBlock(b: BasicBlock, f: Fixed, s: Low): Low {
    Leave(f, LowerCode(b.instrs, f, Enter(b, f, s)))
  }

  function LowerBlocks(code: seq<BasicBlock>, f: Fixed, s: Low): Low
    decreases code
  {
    if code == [] then s else LowerBlock(code[|code| - 1], f, LowerBlocks(code[..|code| - 1], f, s))
  }

  // The last block of each name.
  function BlockMap(code: seq<BasicBlock>): map<string, nat> {
    if code == [] then map[] else BlockMap(code[..|code| - 1])[code[|code| - 1].name := |code| - 1]
  }

  predicate CarriesValue(i: Instr) {
    i.op.Ret? && i.operands != []
  }

  predicate ReturnsIn(instrs: seq<Instr>) {
    instrs != [] && (CarriesValue(instrs[|instrs| - 1]) || ReturnsIn(instrs[..|instrs| - 1]))
  }

  // Some Ret carries a value.
  predicate ReturnsValue(code: seq<BasicBlock>) {
    code != [] && (ReturnsIn(code[|code| - 1].instrs) || ReturnsValue(code[..|code| - 1]))
  }

  function CountParams(instrs: seq<Instr>): nat {
    if instrs == [] then 0
    else CountParams(instrs[..|instrs| - 1]) + (if instrs[|instrs| - 1].op.Param? then 1 else 0)
  }

  function FixedFor(code: seq<BasicBlock>, voids: set<string>): Fixed {
    Fixed(BlockMap(code), !ReturnsValue(code), voids)
  }

  function Begin(code: seq<BasicBlock>): Low {
    Low(map[], seq(|code|, i => []), 0, 0, false)
  }

  function Lower(code: seq<BasicBlock>, voids: set<string>): Low {
    LowerBlocks(code, FixedFor(code, voids), Begin(code))
  }
}
