// One step of the intermediate representation against the lowered code.
module LoweringSimulation {
  import opened Common
  import opened Ir
  import opened Labels
  import opened Dataflow
  import opened Lowering
  import opened LoweringFrame
  import opened LoweringStates
  import opened LoweringSteps
  import Int64
  import IrMachine
  import L = Llvm

  // The two machines are at the same point with the same memory, calls and values.
  ghost predicate Mirror(fin: map<RegID, L.Value>, m: L.Machine, s: Low, c: IrMachine.Config, d: L.Config) {
    && c.Running? && Here(m, s, d) && c.block == s.cur
    && d.mem == c.mem && d.trace == c.trace && SameValues(c.regs, fin, m.p.args, d.env)
  }

  // What the rest of the lowering does to the values around instruction i, which is lowered
  // from s to t.
  ghost predicate Settled(fin: map<RegID, L.Value>, i: Instr, s: Low, t: Low) {
    && (forall r :: Reg(r) in i.operands ==> r in s.regs && r in fin && s.regs[r] == fin[r])
    && AllOld(s) && NO_REG !in fin
    && (forall r :: r in fin && r != i.dest && fin[r].Inst? ==> !(s.next <= fin[r].id < t.next))
    && (i.dest != NO_REG && i.dest in t.regs ==> i.dest in fin && fin[i.dest] == t.regs[i.dest])
  }

  lemma SettledAt(u: Subject, b: nat, k: nat)
    requires Sound(u) && b < |u.code| && k < |u.code[b].instrs|
    ensures Settled(Final(u).regs, u.code[b].instrs[k], Within(u, b, k), Within(u, b, k + 1))
    ensures Within(u, b, k + 1) == LowerInstr(u.code[b].instrs[k], Consts(u), Within(u, b, k))
    ensures Within(u, b, k).cur == b && Within(u, b, k + 1).cur == b
    ensures b < |Within(u, b, k + 1).lowered| == |Final(u).lowered|
    ensures Within(u, b, k + 1).lowered[b] <= Final(u).lowered[b]
  {
    var i := u.code[b].instrs[k];
    var s, t := Within(u, b, k), Within(u, b, k + 1);
    WithinOk(u, b, k);
    WithinOk(u, b, k + 1);
    AtOk(u, |u.code|);
    NextState(u, b, k, s);
    FitsAt(u, b, k);
    FinalGrew(u, b, k);
    FinalGrew(u, b, k + 1);
    forall r | Reg(r) in i.operands ensures r in s.regs && r in Final(u).regs && s.regs[r] == Final(u).regs[r] {
      UsesResolved(u, b, k, r);
    }
    OnlyDest(i, u, s);
  }

  lemma NumOperand(fin: map<RegID, L.Value>, m: L.Machine, i: Instr, s: Low, t: Low, c: IrMachine.Config, d: L.Config,
                   k: nat)
    requires Mirror(fin, m, s, c, d) && Settled(fin, i, s, t) && k < |i.operands|
    requires IrMachine.NumIn(c, i.operands[k]).Some?
    ensures var b := Resolve(i.operands[k], s);
            && b == ResolveAt(i, k, s) && b.s == s && L.TypeOf(b.v) == L.I64 && Old(b.v, s)
            && L.Num(b.v, m.p, d) == IrMachine.NumIn(c, i.operands[k])
  {
    var r := i.operands[k].reg;
    assert Reg(r) in i.operands;
  }

  lemma CellOperand(fin: map<RegID, L.Value>, m: L.Machine, i: Instr, s: Low, t: Low, c: IrMachine.Config, d: L.Config,
                    k: nat)
    requires Mirror(fin, m, s, c, d) && Settled(fin, i, s, t) && k < |i.operands|
    requires IrMachine.CellIn(c, i.operands[k]).Some?
    ensures var b := Resolve(i.operands[k], s);
            b.s == s && Old(b.v, s) && L.Cell(b.v, m.p, d) == IrMachine.CellIn(c, i.operands[k])
  {
    var r := i.operands[k].reg;
    assert Reg(r) in i.operands;
  }

  // The destination gets its value on both sides.
  lemma ValueMirrored(fin: map<RegID, L.Value>, m: L.Machine, i: Instr, s: Low, b: Built, t: Low, c: IrMachine.Config,
                      d: L.Config, k: nat, n: int)
    requires Mirror(fin, m, s, c, d) && Settled(fin, i, s, t) && i.dest != NO_REG
    requires t == SetReg(b.s, i.dest, b.v) && b.s.cur == s.cur
    requires Computes(m, s, b, d, k, L.V64(n)) && L.TypeOf(b.v) == L.I64
    ensures Mirror(fin, m, t, IrMachine.Define(c, i.dest, IrMachine.Num(n)), L.Run(m, d, k))
  {
    var e := L.Run(m, d, k);
    forall r | r in c.regs && r in fin && r != i.dest ensures Means(fin[r], c.regs[r], m.p.args, e.env) {
    }
  }

  lemma ArithmeticAgrees(op: Opcode, x: int, y: int)
    ensures ArithmeticOp(op).Some? ==> IrMachine.BinaryOp(op, x, y) == Some(L.BinValue(ArithmeticOp(op).value, x, y))
    ensures ComparePred(op).Some? ==>
      IrMachine.BinaryOp(op, x, y) == Some(Some(Int64.Truth(L.Holds(ComparePred(op).value, x, y))))
    ensures op.LogAnd? ==> IrMachine.BinaryOp(op, x, y) == Some(Some(Int64.Truth(LogicValue(L.And, x != 0, y != 0))))
    ensures op.LogOr? ==> IrMachine.BinaryOp(op, x, y) == Some(Some(Int64.Truth(LogicValue(L.Or, x != 0, y != 0))))
    ensures IsBinary(op) ==> IrMachine.UnaryOp(op, x).None?
  {
  }

  // After k target steps the target has followed the step to c'.
  ghost predicate Follows(fin: map<RegID, L.Value>, m: L.Machine, t: Low, c': IrMachine.Config, d: L.Config, k: nat) {
    var e := L.Run(m, d, k);
    match c'
    case Running(_, _, _, _, _) => Mirror(fin, m, t, c', e)
    case Trapped(tr) => e == L.Trapped(tr) || e == L.Undefined
    case _ => true
  }

  lemma ExecTwo(p: IrMachine.Program, i: Instr, c: IrMachine.Config)
    requires c.Running? && IsBinary(i.op)
    ensures IrMachine.ExecValue(p, i, c) ==
      if |i.operands| == 2 && IrMachine.NumIn(c, i.operands[0]).Some? && IrMachine.NumIn(c, i.operands[1]).Some? then
        match IrMachine.BinaryOp(i.op, IrMachine.NumIn(c, i.operands[0]).value, IrMachine.NumIn(c, i.operands[1]).value)
        case None => IrMachine.Stuck
        case Some(None) => IrMachine.Trapped(c.trace)
        case Some(Some(v)) => IrMachine.Define(c, i.dest, IrMachine.Num(v))
      else IrMachine.Stuck
  {
  }

  lemma BinaryFollows(fin: map<RegID, L.Value>, p: IrMachine.Program, m: L.Machine, i: Instr, s: Low, t: Low,
                      c: IrMachine.Config, d: L.Config) returns (k: nat)
    requires Mirror(fin, m, s, c, d) && Settled(fin, i, s, t) && Ahead(m, t) && t == LowerBinary(i, s)
    requires IsBinary(i.op) && i.dest != NO_REG
    ensures Follows(fin, m, t, IrMachine.ExecValue(p, i, c), d, k)
    ensures k > 0
  {
    k := 1;
    ExecTwo(p, i, c);
    if |i.operands| == 2 && IrMachine.NumIn(c, i.operands[0]).Some? && IrMachine.NumIn(c, i.operands[1]).Some? {
      var x, y := IrMachine.NumIn(c, i.operands[0]).value, IrMachine.NumIn(c, i.operands[1]).value;
      NumOperand(fin, m, i, s, t, c, d, 0);
      NumOperand(fin, m, i, s, t, c, d, 1);
      ArithmeticAgrees(i.op, x, y);
      k := TwoFollow(fin, p, m, i, Resolve(i.operands[0], s).v, Resolve(i.operands[1], s).v, s, t, c, d, x, y);
    }
  }

  lemma TwoFollow(fin: map<RegID, L.Value>, p: IrMachine.Program, m: L.Machine, i: Instr, a: L.Value, b: L.Value,
                  s: Low, t: Low,
                  c: IrMachine.Config, d: L.Config, x: int, y: int) returns (k: nat)
    requires Mirror(fin, m, s, c, d) && Settled(fin, i, s, t) && Ahead(m, t)
    requires IsBinary(i.op) && i.dest != NO_REG
    requires L.TypeOf(a) == L.I64 && L.Num(a, m.p, d) == Some(x) && L.TypeOf(b) == L.I64 &&
      L.Num(b, m.p, d) == Some(y) && Old(b, s)
    requires IrMachine.BinaryOp(i.op, x, y).Some?
    requires var z := BinaryBuilt(i.op, a, b, s); t == SetReg(z.s, i.dest, z.v)
    ensures k > 0
    ensures Follows(fin, m, t, match IrMachine.BinaryOp(i.op, x, y).value
                               case None => IrMachine.Trapped(c.trace)
                               case Some(v) => IrMachine.Define(c, i.dest, IrMachine.Num(v)), d, k)
  {
    var z := BinaryBuilt(i.op, a, b, s);
    ArithmeticAgrees(i.op, x, y);
    if ArithmeticOp(i.op).Some? {
      k := 1;
      ArithmeticRuns(m, ArithmeticOp(i.op).value, a, b, s, d, x, y);
    } else if ComparePred(i.op).Some? {
      k := 2;
      CompareRuns(m, ComparePred(i.op).value, a, b, s, d, x, y);
    } else {
      k := 4;
      LogicalRuns(m, if i.op.LogAnd? then L.And else L.Or, a, b, s, d, x, y);
    }
    if IrMachine.BinaryOp(i.op, x, y).value.Some? {
      ValueMirrored(fin, m, i, s, z, t, c, d, k, IrMachine.BinaryOp(i.op, x, y).value.value);
    }
  }

  // x ^ -1 flips every bit.
  lemma {:induction false} FlipAll(x: int)
    ensures Int64.Bitwise(Int64.Xor, x, -1) == -x - 1
    decreases Int64.Abs(x)
  {
    if x != 0 && x != -1 {
      FlipAll(x / 2);
    }
  }

  lemma ExecOne(p: IrMachine.Program, i: Instr, c: IrMachine.Config)
    requires c.Running? && (i.op.Neg? || i.op.BitNot? || i.op.LogNot?)
    ensures IrMachine.ExecValue(p, i, c) ==
      if |i.operands| == 1 && IrMachine.NumIn(c, i.operands[0]).Some? then
        IrMachine.Define(c, i.dest,
                         IrMachine.Num(IrMachine.UnaryOp(i.op, IrMachine.NumIn(c, i.operands[0]).value).value))
      else IrMachine.Stuck
  {
  }

  lemma UnaryFollows(fin: map<RegID, L.Value>, p: IrMachine.Program, m: L.Machine, i: Instr, s: Low, t: Low,
                     c: IrMachine.Config, d: L.Config) returns (k: nat)
    requires Mirror(fin, m, s, c, d) && Settled(fin, i, s, t) && Ahead(m, t) && t == LowerUnary(i, s)
    requires (i.op.Neg? || i.op.BitNot? || i.op.LogNot?) && i.dest != NO_REG
    ensures Follows(fin, m, t, IrMachine.ExecValue(p, i, c), d, k)
    ensures k > 0
  {
    k := 1;
    ExecOne(p, i, c);
    if |i.operands| == 1 && IrMachine.NumIn(c, i.operands[0]).Some? {
      var x := IrMachine.NumIn(c, i.operands[0]).value;
      NumOperand(fin, m, i, s, t, c, d, 0);
      var a := Resolve(i.operands[0], s).v;
      k := UnaryRuns(m, i.op, a, s, d, x);
      ValueMirrored(fin, m, i, s, UnaryBuilt(i.op, a, s), t, c, d, k, IrMachine.UnaryOp(i.op, x).value);
    }
  }

  lemma UnaryRuns(m: L.Machine, op: Opcode, a: L.Value, s: Low, d: L.Config, x: int) returns (k: nat)
    requires op.Neg? || op.BitNot? || op.LogNot?
    requires Here(m, s, d) && Ahead(m, UnaryBuilt(op, a, s).s)
    requires L.TypeOf(a) == L.I64 && L.Num(a, m.p, d) == Some(x)
    ensures k > 0 && Computes(m, s, UnaryBuilt(op, a, s), d, k, L.V64(IrMachine.UnaryOp(op, x).value))
    ensures L.TypeOf(UnaryBuilt(op, a, s).v) == L.I64 && UnaryBuilt(op, a, s).s.cur == s.cur
  {
    k := 1;
    if op.Neg? {
      ArithmeticRuns(m, L.Sub, L.Const(0), a, s, d, 0, x);
    } else if op.BitNot? {
      FlipAll(x);
      ArithmeticRuns(m, L.Xor, a, L.Const(-1), s, d, x, -1);
    } else {
      k := 3;
      LogicalNotRuns(m, a, s, d, x);
    }
  }

  lemma AllocaFollows(fin: map<RegID, L.Value>, m: L.Machine, i: Instr, s: Low, t: Low, c: IrMachine.Config,
                      d: L.Config)
    requires Mirror(fin, m, s, c, d) && Settled(fin, i, s, t) && Ahead(m, t) && t == LowerMemory(i, s)
    requires i.op.Alloca? && i.dest != NO_REG
    ensures Follows(fin, m, t, IrMachine.ExecMemory(i, c), d, 1)
  {
    PutRuns(m, s, L.Alloca(s.next), d);
    var c', e := IrMachine.ExecMemory(i, c), L.Run(m, d, 1);
    forall r | r in c'.regs && r in fin ensures Means(fin[r], c'.regs[r], m.p.args, e.env) {
      if r != i.dest {
        assert Means(fin[r], c.regs[r], m.p.args, d.env);
      }
    }
  }

  lemma LoadFollows(fin: map<RegID, L.Value>, m: L.Machine, i: Instr, s: Low, t: Low, c: IrMachine.Config, d: L.Config)
    requires Mirror(fin, m, s, c, d) && Settled(fin, i, s, t) && Ahead(m, t) && t == LowerMemory(i, s)
    requires i.op.Load? && i.dest != NO_REG && IrMachine.ExecMemory(i, c).Running?
    ensures Follows(fin, m, t, IrMachine.ExecMemory(i, c), d, 1)
  {
    CellOperand(fin, m, i, s, t, c, d, 0);
    var ptr := Resolve(i.operands[0], s).v;
    var n := c.mem[IrMachine.CellIn(c, i.operands[0]).value].value;
    DefineRuns(m, s, L.Load(s.next, ptr), d, L.V64(n));
    var z := Built(Put(Take(s), L.Load(s.next, ptr)), L.Inst(s.next, L.I64));
    ValueMirrored(fin, m, i, s, z, t, c, d, 1, n);
  }

  lemma StoreFollows(fin: map<RegID, L.Value>, m: L.Machine, i: Instr, s: Low, t: Low, c: IrMachine.Config, d: L.Config)
    requires Mirror(fin, m, s, c, d) && Settled(fin, i, s, t) && Ahead(m, t) && t == LowerMemory(i, s)
    requires i.op.Store? && IrMachine.ExecMemory(i, c).Running?
    ensures Follows(fin, m, t, IrMachine.ExecMemory(i, c), d, 1)
  {
    NumOperand(fin, m, i, s, t, c, d, 0);
    CellOperand(fin, m, i, s, t, c, d, 1);
    PutRuns(m, s, L.Store(Resolve(i.operands[0], s).v, Resolve(i.operands[1], s).v), d);
  }

  // Operands that are all numbers.
  lemma {:induction false} NumOperands(fin: map<RegID, L.Value>, m: L.Machine, i: Instr, s: Low, t: Low,
                                       c: IrMachine.Config,
                                       d: L.Config, k: nat)
    requires Mirror(fin, m, s, c, d) && Settled(fin, i, s, t) && k <= |i.operands|
    requires IrMachine.NumsIn(c, i.operands[k..]).Some?
    ensures ResolveAll(i.operands[k..], s).0 == s
    ensures L.Nums(ResolveAll(i.operands[k..], s).1, m.p, d) == IrMachine.NumsIn(c, i.operands[k..])
    decreases |i.operands| - k
  {
    if k < |i.operands| {
      assert i.operands[k..][0] == i.operands[k] && i.operands[k..][1..] == i.operands[k + 1..];
      NumOperand(fin, m, i, s, t, c, d, k);
      NumOperands(fin, m, i, s, t, c, d, k + 1);
      assert (ResolveAll(i.operands[k..], s).1)[1..] == ResolveAll(i.operands[k + 1..], s).1;
    }
  }

  // The call has the same effect, and leaves its result in the destination register if
  // that register is one that has a value.
  lemma CallFollows(fin: map<RegID, L.Value>, p: IrMachine.Program, f: Fixed, m: L.Machine, i: Instr, s: Low, t: Low,
                    c: IrMachine.Config, d: L.Config)
    requires Mirror(fin, m, s, c, d) && Settled(fin, i, s, t) && Ahead(m, t) && t == LowerCall(i, f, s)
    requires i.op.Call? && i.dest != NO_REG && i.tag !in {"exit", "escape", "wait"} && p.world == m.p.world
    requires !IrMachine.ExecCall(p, i, c).Stuck?
    requires i.dest in fin ==> i.dest in t.regs && i.dest !in s.regs
    ensures Follows(fin, m, t, IrMachine.ExecCall(p, i, c), d, 1)
  {
    if IsPrint(i) {
      PrintFollows(fin, p, f, m, i, s, t, c, d);
    } else {
      assert i.operands[0..] == i.operands;
      NumOperands(fin, m, i, s, t, c, d, 0);
      var instr := L.Call(s.next, i.tag, ResolveAll(i.operands, s).1, i.tag in f.voids);
      assert Put(Take(s), instr).lowered == Put(s, instr).lowered;
      PutRuns(m, s, instr, d);
      assert L.Exec(instr, m.p, d) == L.ExecCall(instr, m.p, d);
      InvokeFollows(fin, p, m, i, instr, s, t, c, d);
    }
  }

  lemma InvokeFollows(fin: map<RegID, L.Value>, p: IrMachine.Program, m: L.Machine, i: Instr, instr: L.LInstr, s: Low,
                      t: Low,
                      c: IrMachine.Config, d: L.Config)
    requires Mirror(fin, m, s, c, d) && Settled(fin, i, s, t) && i.dest != NO_REG && p.world == m.p.world
    requires instr.Call? && instr.id == s.next && instr.callee == i.tag && IrMachine.NumsIn(c, i.operands).Some?
    requires L.Nums(instr.args, m.p, d) == IrMachine.NumsIn(c, i.operands)
    requires L.Run(m, d, 1) == L.ExecCall(instr, m.p, d)
    requires var s1 := Put(Take(s), instr); t == if instr.isVoid then s1 else SetReg(s1, i.dest, L.Inst(s.next, L.I64))
    requires i.dest in fin ==> i.dest in t.regs && i.dest !in s.regs
    ensures Follows(fin, m, t, IrMachine.ExecCall(p, i, c), d, 1)
  {
    var c', e := IrMachine.ExecCall(p, i, c), L.Run(m, d, 1);
    if c'.Running? {
      forall r | r in c'.regs && r in fin ensures Means(fin[r], c'.regs[r], m.p.args, e.env) {
        if r != i.dest {
          assert Means(fin[r], c.regs[r], m.p.args, d.env);
        }
      }
    }
  }

  lemma PrintFollows(fin: map<RegID, L.Value>, p: IrMachine.Program, f: Fixed, m: L.Machine, i: Instr, s: Low, t: Low,
                     c: IrMachine.Config, d: L.Config)
    requires Mirror(fin, m, s, c, d) && Settled(fin, i, s, t) && Ahead(m, t) && t == LowerCall(i, f, s)
    requires i.op.Call? && IsPrint(i) && i.dest !in fin && p.world == m.p.world
    requires !IrMachine.ExecCall(p, i, c).Stuck?
    ensures Follows(fin, m, t, IrMachine.ExecCall(p, i, c), d, 1)
  {
    assert i.operands[1..] == [];
    assert IrMachine.NumsIn(c, i.operands[1..]) == Some([]);
    NumOperand(fin, m, i, s, t, c, d, 0);
    var instr := L.Print(i.tag, Resolve(i.operands[0], s).v);
    PutRuns(m, s, instr, d);
    assert L.Exec(instr, m.p, d) == L.ExecCall(instr, m.p, d);
    assert [instr.arg][1..] == [];
    assert L.Nums([instr.arg][1..], m.p, d) == Some([]);
    var n := IrMachine.NumIn(c, i.operands[0]).value;
    assert [n] + [] == [n];
    assert L.Nums([instr.arg], m.p, d) == Some([n]);
    assert IrMachine.NumsIn(c, i.operands) == Some([n]);
  }

  lemma ConstantFollows(fin: map<RegID, L.Value>, p: IrMachine.Program, m: L.Machine, i: Instr, f: Fixed, s: Low,
                        t: Low,
                        c: IrMachine.Config, d: L.Config)
    requires Mirror(fin, m, s, c, d) && Settled(fin, i, s, t) && t == LowerInstr(i, f, s)
    requires (i.op.Param? || i.op.Copy?) && Shaped(i) && p.args == m.p.args && IrMachine.ExecValue(p, i, c).Running?
    ensures Follows(fin, m, t, IrMachine.ExecValue(p, i, c), d, 0)
  {
    var c' := IrMachine.ExecValue(p, i, c);
    forall r | r in c'.regs && r in fin ensures Means(fin[r], c'.regs[r], m.p.args, d.env) {
      if r != i.dest {
        assert Means(fin[r], c.regs[r], m.p.args, d.env);
      }
    }
  }

  lemma MemoryFollows(fin: map<RegID, L.Value>, m: L.Machine, i: Instr, s: Low, t: Low, c: IrMachine.Config,
                      d: L.Config)
    requires Mirror(fin, m, s, c, d) && Settled(fin, i, s, t) && Ahead(m, t) && t == LowerMemory(i, s)
    requires (i.op.Alloca? || i.op.Load? || i.op.Store?) && Shaped(i) && !IrMachine.ExecMemory(i, c).Stuck?
    ensures Follows(fin, m, t, IrMachine.ExecMemory(i, c), d, 1)
  {
    match i.op
    case Alloca => AllocaFollows(fin, m, i, s, t, c, d);
    case Load => LoadFollows(fin, m, i, s, t, c, d);
    case Store => StoreFollows(fin, m, i, s, t, c, d);
  }

  // Any instruction but a terminator.
  lemma InstrFollows(fin: map<RegID, L.Value>, p: IrMachine.Program, m: L.Machine, i: Instr, f: Fixed, s: Low, t: Low,
                     c: IrMachine.Config, d: L.Config) returns (k: nat)
    requires Mirror(fin, m, s, c, d) && Settled(fin, i, s, t) && Ahead(m, t) && t == LowerInstr(i, f, s)
    requires Shaped(i) && !IsTerminator(i) && (i.op.Call? ==> i.tag !in {"exit", "escape", "wait"})
    requires p.args == m.p.args && p.world == m.p.world && !IrMachine.Exec(p, i, c).Stuck?
    requires i.dest in fin ==> i.dest in t.regs && i.dest !in s.regs
    ensures Follows(fin, m, t, IrMachine.Exec(p, i, c), d, k)
  {
    k := 1;
    if i.op.Alloca? || i.op.Load? || i.op.Store? {
      MemoryFollows(fin, m, i, s, t, c, d);
    } else if i.op.Call? {
      CallFollows(fin, p, f, m, i, s, t, c, d);
    } else if i.op.Param? || i.op.Copy? {
      ConstantFollows(fin, p, m, i, f, s, t, c, d);
      k := 0;
    } else if IsBinary(i.op) {
      k := BinaryFollows(fin, p, m, i, s, t, c, d);
    } else {
      k := UnaryFollows(fin, p, m, i, s, t, c, d);
    }
  }

  // Terminators.

  lemma ReturnFollows(fin: map<RegID, L.Value>, m: L.Machine, i: Instr, f: Fixed, s: Low, t: Low,
                      p: IrMachine.Program, c: IrMachine.Config, d: L.Config)
    requires Mirror(fin, m, s, c, d) && Settled(fin, i, s, t) && Ahead(m, t) && t == LowerJump(i, f, s)
    requires i.op.Ret? && (i.operands != [] ==> !f.retVoid) && IrMachine.ExecJump(p, i, c).Halted?
    ensures var r := IrMachine.ExecJump(p, i, c);
            L.Run(m, d, 1) == if r.result.Some? || f.retVoid then L.Halted(r.result, r.trace) else L.Undefined
  {
    if f.retVoid {
      PutRuns(m, s, L.RetVoid, d);
    } else if i.operands == [] {
      PutRuns(m, s, L.Unreachable, d);
    } else {
      NumOperand(fin, m, i, s, t, c, d, 0);
      PutRuns(m, s, L.Ret(Resolve(i.operands[0], s).v), d);
    }
  }

  lemma BranchFollows(m: L.Machine, i: Instr, f: Fixed, s: Low, t: Low, d: L.Config, b: nat)
    requires Here(m, s, d) && Ahead(m, t) && t == LowerJump(i, f, s)
    requires i.op.Branch? && i.tag in f.blocks && f.blocks[i.tag] == b < |m.p.code|
    ensures L.Run(m, d, 1) == L.Running(b, 0, d.env, d.mem, d.trace)
  {
    PutRuns(m, s, L.Br(b), d);
  }

  lemma CondBranchFollows(fin: map<RegID, L.Value>, m: L.Machine, i: Instr, f: Fixed, s: Low, t: Low,
                          c: IrMachine.Config, d: L.Config, a: nat, b: nat)
    requires Mirror(fin, m, s, c, d) && Settled(fin, i, s, t) && Ahead(m, t) && t == LowerJump(i, f, s)
    requires i.op.CondBranch? && i.dest == NO_REG && |i.operands| == 1 && IrMachine.NumIn(c, i.operands[0]).Some? &&
      SplitTargets(i.tag).Some?
    requires var (x, y) := SplitTargets(i.tag).value;
             && x in f.blocks && f.blocks[x] == a < |m.p.code| && y in f.blocks && f.blocks[y] == b < |m.p.code|
    ensures var e := L.Run(m, d, 2);
            && e.Running? && e.block == (if IrMachine.NumIn(c, i.operands[0]).value != 0 then a else b) && e.pc == 0
            && e.mem == d.mem && e.trace == d.trace && SameValues(c.regs, fin, m.p.args, e.env)
  {
    NumOperand(fin, m, i, s, t, c, d, 0);
    var v := Resolve(i.operands[0], s).v;
    var z := ToI1(v, s);
    ToI1Straight(v, s);
    var jump := L.CondBr(z.v, a, b);
    assert t == Put(z.s, jump);
    AheadBefore(m, z.s, t);
    ToI1Runs(m, v, s, d, IrMachine.NumIn(c, i.operands[0]).value);
    PutRuns(m, z.s, jump, L.Run(m, d, 1));
    L.RunAdd(m, d, 1, 1);
    var e := L.Run(m, d, 1);
    forall r | r in c.regs && r in fin ensures Means(fin[r], c.regs[r], m.p.args, e.env) {
      assert Means(fin[r], c.regs[r], m.p.args, d.env);
      assert fin[r].Inst? ==> !(s.next <= fin[r].id < t.next);
    }
  }
}
