// The target: typed values, append-only blocks, and a machine that runs them.
module Llvm {
  import opened Common
  import opened Runtime
  import Int64

  datatype Ty = I64 | I1 | Pointer | Double

  // What an llvm::Value* can stand for in lowered code.
  datatype Value =
    | Const(n: int)
    | ConstDouble(text: string)
    | Arg(index: nat)
    | Inst(id: nat, ty: Ty)
    | Undef

  function TypeOf(v: Value): Ty {
    match v
    case ConstDouble(_) => Double
    case Inst(_, ty) => ty
    case _ => I64
  }

  datatype BinOp = Add | Sub | Mul | SDiv | SRem | And | Or | Xor | Shl | AShr
  datatype Pred = EQ | NE | SLT | SGT | SLE | SGE

  // `Call` has no result when the callee returns void; `Print` is the call of printf that
  // print and println become.
  datatype LInstr =
    | Alloca(id: nat)
    | Load(id: nat, ptr: Value)
    | Store(value: Value, ptr: Value)
    | Bin(id: nat, op: BinOp, a: Value, b: Value)
    | Not(id: nat, a: Value)
    | ICmp(id: nat, pred: Pred, a: Value, b: Value)
    | ZExt(id: nat, a: Value)
    | StrPtr(id: nat, text: string)
    | Call(id: nat, callee: string, args: seq<Value>, isVoid: bool)
    | Exit(callee: string, args: seq<Value>)
    | Sleep(args: seq<Value>)
    | Print(callee: string, arg: Value)
    | Ret(value: Value)
    | RetVoid
    | Br(target: nat)
    | CondBr(cond: Value, ifTrue: nat, ifFalse: nat)
    | Unreachable

  predicate IsTerminator(i: LInstr) {
    i.Ret? || i.RetVoid? || i.Br? || i.CondBr? || i.Unreachable?
  }

  predicate IsTerminated(code: seq<LInstr>) {
    code != [] && IsTerminator(code[|code| - 1])
  }

  datatype Val = V64(n: int) | V1(b: bool) | VPtr(addr: nat)

  datatype Program = Program(code: seq<seq<LInstr>>, args: seq<int>, world: World)

  // `Undefined` is undefined behaviour, an ill-typed instruction or an unreachable one.
  datatype Config =
    | Running(block: nat, pc: nat, env: map<nat, Val>, mem: seq<Option<int>>, trace: Trace)
    | Halted(result: Option<int>, trace: Trace)
    | Trapped(trace: Trace)
    | Undefined

  const START := Running(0, 0, map[], [], [])

  function Denote(v: Value, args: seq<int>, env: map<nat, Val>): Option<Val> {
    match v
    case Const(n) => Some(V64(n))
    case Arg(k) => if k < |args| then Some(V64(args[k])) else None
    case Inst(id, _) => if id in env then Some(env[id]) else None
    case _ => None
  }

  function Num(v: Value, p: Program, c: Config): Option<int>
    requires c.Running?
  {
    match Denote(v, p.args, c.env)
    case Some(V64(n)) => Some(n)
    case _ => None
  }

  function Bit(v: Value, p: Program, c: Config): Option<bool>
    requires c.Running?
  {
    match Denote(v, p.args, c.env)
    case Some(V1(b)) => Some(b)
    case _ => None
  }

  function Cell(v: Value, p: Program, c: Config): (r: Option<nat>)
    requires c.Running?
    ensures r.Some? ==> r.value < |c.mem|
  {
    match Denote(v, p.args, c.env)
    case Some(VPtr(a)) => if a < |c.mem| then Some(a) else None
    case _ => None
  }

  function Nums(vs: seq<Value>, p: Program, c: Config): Option<seq<int>>
    requires c.Running?
  {
    if vs == [] then Some([])
    else
      match Num(vs[0], p, c)
      case None => None
      case Some(n) =>
        match Nums(vs[1..], p, c)
        case None => None
        case Some(ns) => Some([n] + ns)
  }

  // None is undefined behaviour: division by zero, an overflowing division, a shift out of
  // range.
  function BinValue(op: BinOp, a: int, b: int): Option<int> {
    match op
    case Add => Some(Int64.Wrap(a + b))
    case Sub => Some(Int64.Wrap(a - b))
    case Mul => Some(Int64.Wrap(a * b))
    case SDiv => Int64.Div(a, b)
    case SRem => Int64.Rem(a, b)
    case And => Some(Int64.Bitwise(Int64.And, a, b))
    case Or => Some(Int64.Bitwise(Int64.Or, a, b))
    case Xor => Some(Int64.Bitwise(Int64.Xor, a, b))
    case Shl => Int64.Shl(a, b)
    case AShr => Int64.Shr(a, b)
  }

  function Holds(pred: Pred, a: int, b: int): bool {
    match pred
    case EQ => a == b
    case NE => a != b
    case SLT => a < b
    case SGT => a > b
    case SLE => a <= b
    case SGE => a >= b
  }

  function Define(c: Config, id: nat, v: Val): Config
    requires c.Running?
  {
    c.(pc := c.pc + 1, env := c.env[id := v])
  }

  function Jump(p: Program, c: Config, b: nat): Config
    requires c.Running?
  {
    if b < |p.code| then c.(block := b, pc := 0) else Undefined
  }

  function Invoke(p: Program, c: Config, f: string, args: seq<int>): Option<(Config, int)>
    requires c.Running?
    ensures var r := Invoke(p, c, f, args);
            r.Some? ==> r.value.0.Running?
  {
    match p.world(c.trace, f, args)
    case None => None
    case Some(v) =>
      Some((Running(c.block, c.pc, c.env, c.mem, c.trace + [Event(f, args, v)]), v))
  }

  function ExecBin(i: LInstr, p: Program, c: Config): Config
    requires c.Running? && i.Bin?
  {
    if Num(i.a, p, c).Some? && Num(i.b, p, c).Some? then
      match BinValue(i.op, Num(i.a, p, c).value, Num(i.b, p, c).value)
      case None => Undefined
      case Some(v) => Define(c, i.id, V64(v))
    else if Bit(i.a, p, c).Some? && Bit(i.b, p, c).Some? then
      if i.op.And? then Define(c, i.id, V1(Bit(i.a, p, c).value && Bit(i.b, p, c).value))
      else if i.op.Or? then Define(c, i.id, V1(Bit(i.a, p, c).value || Bit(i.b, p, c).value))
      else Undefined
    else Undefined
  }

  function ExecCall(i: LInstr, p: Program, c: Config): Config
    requires c.Running? && (i.Call? || i.Print?)
  {
    var f := i.callee;
    match if i.Call? then Nums(i.args, p, c) else Nums([i.arg], p, c)
    case None => Undefined
    case Some(args) =>
      match Invoke(p, c, f, args)
      case None => Trapped(c.trace)
      case Some((d, v)) =>
        if i.Call? && !i.isVoid then Define(d, i.id, V64(v)) else d.(pc := d.pc + 1)
  }

  function Exec(i: LInstr, p: Program, c: Config): Config
    requires c.Running?
  {
    match i
    case Alloca(id) => Define(c.(mem := c.mem + [None]), id, VPtr(|c.mem|))
    case Load(id, ptr) =>
      if Cell(ptr, p, c).Some? && c.mem[Cell(ptr, p, c).value].Some?
      then Define(c, id, V64(c.mem[Cell(ptr, p, c).value].value)) else Undefined
    case Store(v, ptr) =>
      if Num(v, p, c).Some? && Cell(ptr, p, c).Some?
      then c.(pc := c.pc + 1, mem := c.mem[Cell(ptr, p, c).value := Num(v, p, c)]) else Undefined
    case Bin(_, _, _, _) => ExecBin(i, p, c)
    case Not(id, a) => if Bit(a, p, c).Some? then Define(c, id, V1(!Bit(a, p, c).value)) else Undefined
    case ICmp(id, pred, a, b) =>
      if Num(a, p, c).Some? && Num(b, p, c).Some?
      then Define(c, id, V1(Holds(pred, Num(a, p, c).value, Num(b, p, c).value))) else Undefined
    case ZExt(id, a) =>
      if Bit(a, p, c).Some? then Define(c, id, V64(Int64.Truth(Bit(a, p, c).value))) else Undefined
    case Call(_, _, _, _) => ExecCall(i, p, c)
    case Print(_, _) => ExecCall(i, p, c)
    case Ret(v) => if Num(v, p, c).Some? then Halted(Num(v, p, c), c.trace) else Undefined
    case RetVoid => Halted(None, c.trace)
    case Br(b) => Jump(p, c, b)
    case CondBr(v, t, f) => if Bit(v, p, c).Some? then Jump(p, c, if Bit(v, p, c).value then t else f) else Undefined
    case _ => Undefined
  }

  function Step(p: Program, c: Config): Config {
    if !c.Running? then c
    else if c.block < |p.code| && c.pc < |p.code[c.block]| then Exec(p.code[c.block][c.pc], p, c)
    else Undefined
  }

  // A loaded program together with its step function, as for the IR machine.
  datatype Loaded = Loaded(p: Program, next: Config -> Config)

  ghost predicate Drives(l: Loaded) {
    forall c {:trigger Step(l.p, c)} :: l.next(c) == Step(l.p, c)
  }

  type Machine = l: Loaded | Drives(l) ghost witness Boot(Program([], [], (t, f, args) => None))

  function Boot(p: Program): (l: Loaded)
    ensures l.p == p && Drives(l)
  {
    Loaded(p, c => Step(p, c))
  }

  function Run(m: Machine, c: Config, steps: nat): Config
    decreases steps
  {
    if steps == 0 then c else Run(m, m.next(c), steps - 1)
  }

  lemma {:induction false} RunAdd(m: Machine, c: Config, a: nat, b: nat)
    ensures Run(m, c, a + b) == Run(m, Run(m, c, a), b)
    decreases a
  {
    if a > 0 {
      RunAdd(m, m.next(c), a - 1, b);
    }
  }

  lemma OneStep(m: Machine, c: Config)
    ensures Run(m, c, 1) == Step(m.p, c)
  {
    assert Run(m, c, 1) == Run(m, m.next(c), 0);
  }

  // A run that has ended stays as it is.
  lemma {:induction false} RunEnded(m: Machine, c: Config, n: nat)
    requires !c.Running?
    ensures Run(m, c, n) == c
    decreases n
  {
    if n > 0 {
      assert Step(m.p, c) == c;
      RunEnded(m, c, n - 1);
    }
  }

  lemma EndedAt(m: Machine, c: Config, n: nat, k: nat)
    requires !Run(m, c, n).Running? && n <= k
    ensures Run(m, c, k) == Run(m, c, n)
  {
    RunAdd(m, c, n, k - n);
    RunEnded(m, Run(m, c, n), k - n);
  }

  lemma SameEnd(m: Machine, c: Config, n: nat, k: nat)
    requires !Run(m, c, n).Running? && !Run(m, c, k).Running?
    ensures Run(m, c, n) == Run(m, c, k)
  {
    if n <= k {
      EndedAt(m, c, n, k);
    } else {
      EndedAt(m, c, k, n);
    }
  }
}
