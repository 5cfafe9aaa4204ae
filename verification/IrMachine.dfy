// A machine that runs the intermediate representation of one function.
module IrMachine {
  import opened Common
  import opened Ir
  import opened Labels
  import opened Runtime
  import Int64

  // A register holds a number or the address of a stack slot.
  datatype Val = Num(n: int) | Ptr(addr: nat)

  datatype Program = Program(code: seq<BasicBlock>, args: seq<int>, world: World)

  // `Stuck` is what the representation gives no meaning to: an undefined register, a
  // number used as an address, an unwritten cell, a missing block.
  datatype Config =
    | Running(block: nat, pc: nat, regs: map<RegID, Val>, mem: seq<Option<int>>, trace: Trace)
    | Halted(result: Option<int>, trace: Trace)
    | Trapped(trace: Trace)
    | Stuck

  const START := Running(0, 0, map[], [], [])

  // The last block of that name, as a label-to-block map filled in order would give.
  function FindBlock(code: seq<BasicBlock>, name: string): (r: Option<nat>)
    ensures r.Some? ==> r.value < |code| && code[r.value].name == name
  {
    if code == [] then None
    else if code[|code| - 1].name == name then Some(|code| - 1)
    else FindBlock(code[..|code| - 1], name)
  }

  function NumIn(c: Config, o: Operand): Option<int>
    requires c.Running?
  {
    if o.Reg? && o.reg in c.regs && c.regs[o.reg].Num? then Some(c.regs[o.reg].n) else None
  }

  function CellIn(c: Config, o: Operand): (r: Option<nat>)
    requires c.Running?
    ensures r.Some? ==> r.value < |c.mem|
  {
    if o.Reg? && o.reg in c.regs && c.regs[o.reg].Ptr? && c.regs[o.reg].addr < |c.mem|
    then Some(c.regs[o.reg].addr) else None
  }

  function NumsIn(c: Config, os: seq<Operand>): Option<seq<int>>
    requires c.Running?
  {
    if os == [] then Some([])
    else
      match NumIn(c, os[0])
      case None => None
      case Some(n) =>
        match NumsIn(c, os[1..])
        case None => None
        case Some(ns) => Some([n] + ns)
  }

  // The inner option is the trap; the outer one says whether op is a binary operation.
  function BinaryOp(op: Opcode, a: int, b: int): Option<Option<int>> {
    match op
    case Add => Some(Some(Int64.Wrap(a + b)))
    case Sub => Some(Some(Int64.Wrap(a - b)))
    case Mul => Some(Some(Int64.Wrap(a * b)))
    case Div => Some(Int64.Div(a, b))
    case Mod => Some(Int64.Rem(a, b))
    case BitAnd => Some(Some(Int64.Bitwise(Int64.And, a, b)))
    case BitOr => Some(Some(Int64.Bitwise(Int64.Or, a, b)))
    case BitXor => Some(Some(Int64.Bitwise(Int64.Xor, a, b)))
    case Shl => Some(Int64.Shl(a, b))
    case Shr => Some(Int64.Shr(a, b))
    case CmpEq => Some(Some(Int64.Truth(a == b)))
    case CmpNe => Some(Some(Int64.Truth(a != b)))
    case CmpLt => Some(Some(Int64.Truth(a < b)))
    case CmpGt => Some(Some(Int64.Truth(a > b)))
    case CmpLe => Some(Some(Int64.Truth(a <= b)))
    case CmpGe => Some(Some(Int64.Truth(a >= b)))
    case LogAnd => Some(Some(Int64.Truth(a != 0 && b != 0)))
    case LogOr => Some(Some(Int64.Truth(a != 0 || b != 0)))
    case _ => None
  }

  function UnaryOp(op: Opcode, a: int): Option<int> {
    match op
    case Neg => Some(Int64.Wrap(-a))
    case BitNot => Some(-a - 1)
    case LogNot => Some(Int64.Truth(a == 0))
    case Cast => Some(a)
    case _ => None
  }

  function Define(c: Config, r: RegID, v: Val): Config
    requires c.Running?
  {
    c.(pc := c.pc + 1, regs := c.regs[r := v])
  }

  function Goto(p: Program, c: Config, name: string): Config
    requires c.Running?
  {
    match FindBlock(p.code, name)
    case None => Stuck
    case Some(b) => c.(block := b, pc := 0)
  }

  function ExecMemory(i: Instr, c: Config): Config
    requires c.Running?
  {
    match i.op
    case Alloca => Define(c.(mem := c.mem + [None]), i.dest, Ptr(|c.mem|))
    case Load =>
      if |i.operands| == 1 && CellIn(c, i.operands[0]).Some? && c.mem[CellIn(c, i.operands[0]).value].Some?
      then Define(c, i.dest, Num(c.mem[CellIn(c, i.operands[0]).value].value))
      else Stuck
    case Store =>
      if |i.operands| == 2 && NumIn(c, i.operands[0]).Some? && CellIn(c, i.operands[1]).Some?
      then c.(pc := c.pc + 1, mem := c.mem[CellIn(c, i.operands[1]).value := NumIn(c, i.operands[0])])
      else Stuck
    case _ => Stuck
  }

  function ExecCall(p: Program, i: Instr, c: Config): Config
    requires c.Running?
  {
    match NumsIn(c, i.operands)
    case None => Stuck
    case Some(args) =>
      match p.world(c.trace, i.tag, args)
      case None => Trapped(c.trace)
      case Some(v) => 
        var called := Running(c.block, c.pc, c.regs, c.mem, c.trace + [Event(i.tag, args, v)]);
        Define(called, i.dest, Num(v))
  }

  function ExecJump(p: Program, i: Instr, c: Config): Config
    requires c.Running?
  {
    match i.op
    case Ret =>
      if i.operands == [] then Halted(None, c.trace)
      else if |i.operands| == 1 && NumIn(c, i.operands[0]).Some? then Halted(NumIn(c, i.operands[0]), c.trace)
      else Stuck
    case Branch => Goto(p, c, i.tag)
    case CondBranch =>
      if |i.operands| == 1 && NumIn(c, i.operands[0]).Some? then
        match SplitTargets(i.tag)
        case None => Stuck
        case Some((t, f)) => Goto(p, c, if NumIn(c, i.operands[0]).value != 0 then t else f)
      else Stuck
    case _ => Stuck
  }

  function ExecValue(p: Program, i: Instr, c: Config): Config
    requires c.Running?
  {
    if i.op.Param? then
      if |i.operands| == 1 && i.operands[0].IntImm? && 0 <= i.operands[0].value < |p.args|
      then Define(c, i.dest, Num(p.args[i.operands[0].value])) else Stuck
    else if i.op.Copy? then
      if |i.operands| == 1 && i.operands[0].IntImm? then Define(c, i.dest, Num(i.operands[0].value))
      else if |i.operands| == 1 && i.operands[0].BoolImm? then Define(c, i.dest, Num(Int64.Truth(i.operands[0].truth)))
      else Stuck
    else if |i.operands| == 1 && NumIn(c, i.operands[0]).Some? &&
      UnaryOp(i.op, NumIn(c, i.operands[0]).value).Some? then
      Define(c, i.dest, Num(UnaryOp(i.op, NumIn(c, i.operands[0]).value).value))
    else if |i.operands| == 2 && NumIn(c, i.operands[0]).Some? && NumIn(c, i.operands[1]).Some? then
      match BinaryOp(i.op, NumIn(c, i.operands[0]).value, NumIn(c, i.operands[1]).value)
      case None => Stuck
      case Some(None) => Trapped(c.trace)
      case Some(Some(v)) => Define(c, i.dest, Num(v))
    else Stuck
  }

  function Exec(p: Program, i: Instr, c: Config): Config
    requires c.Running?
  {
    if i.op.Alloca? || i.op.Load? || i.op.Store? then ExecMemory(i, c)
    else if IsTerminator(i) then ExecJump(p, i, c)
    else if i.op.Call? then ExecCall(p, i, c)
    else ExecValue(p, i, c)
  }

  function Step(p: Program, c: Config): Config {
    if !c.Running? then c
    else if c.block < |p.code| && c.pc < |p.code[c.block].instrs| then Exec(p, p.code[c.block].instrs[c.pc], c)
    else Stuck
  }

  // A loaded program together with its step function. Keeping the function as a value lets
  // runs be composed without looking at what a step does.
  datatype Loaded = Loaded(p: Program, next: Config -> Config)

  ghost predicate Drives(l: Loaded) {
    forall c {:trigger Step(l.p, c)} :: l.next(c) == Step(l.p, c)
  }

  type Machine = l: Loaded | Drives(l) ghost witness Boot(Program([], [], (t, f, args) => None))

  function Boot(p: Program): (l: Loaded)
    ensures l.p == p && Drives(l)
  {
    Loaded(p, c => Step(p, c))
  }

  function Run(m: Machine, c: Config, steps: nat): Config
    decreases steps
  {
    if steps == 0 then c else Run(m, m.next(c), steps - 1)
  }

  lemma {:induction false} RunAdd(m: Machine, c: Config, a: nat, b: nat)
    ensures Run(m, c, a + b) == Run(m, Run(m, c, a), b)
    decreases a
  {
    if a > 0 {
      RunAdd(m, m.next(c), a - 1, b);
    }
  }

  lemma OneStep(m: Machine, c: Config)
    ensures Run(m, c, 1) == Step(m.p, c)
  {
    assert Run(m, c, 1) == Run(m, m.next(c), 0);
  }

  // A run that has ended stays as it is.
  lemma {:induction false} RunEnded(m: Machine, c: Config, n: nat)
    requires !c.Running?
    ensures Run(m, c, n) == c
    decreases n
  {
    if n > 0 {
      assert Step(m.p, c) == c;
      RunEnded(m, c, n - 1);
    }
  }

  lemma {:induction false} FindUnique(code: seq<BasicBlock>, b: nat)
    requires b < |code|
    requires forall i, j :: 0 <= i < j < |code| ==> code[i].name != code[j].name
    ensures FindBlock(code, code[b].name) == Some(b)
    decreases |code|
  {
    if b < |code| - 1 {
      var shorter := code[..|code| - 1];
      assert shorter[b] == code[b];
      FindUnique(shorter, b);
    }
  }
}
