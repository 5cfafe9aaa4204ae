// FunctionLowering as it runs: it walks the blocks once, filling its maps and appending to
// the target block at the insertion point.
module FunctionLowerings {
  import opened Ir
  import opened Labels
  import opened Lowering
  import Llvm

  class FunctionLowering {
    const irFn: seq<BasicBlock>
    const voids: set<string>
    var regs: map<RegID, Llvm.Value>
    var blocks: map<string, nat>
    var retVoid: bool
    // The insertion point is the end of lowered[cur].
    var lowered: seq<seq<Llvm.LInstr>>
    var cur: nat
    var next: nat
    var failed: bool

    constructor (irFn: seq<BasicBlock>, voids: set<string>)
      ensures this.irFn == irFn && this.voids == voids
    {
      this.irFn := irFn;
      this.voids := voids;
      regs, blocks, retVoid, lowered, cur, next, failed := map[], map[], true, [], 0, 0, false;
    }

    function State(): Low
      reads this
    {
      Low(regs, lowered, cur, next, failed)
    }

    function Consts(): Fixed
      reads this
    {
      Fixed(blocks, retVoid, voids)
    }

    // The number of Param instructions in the entry block.
    method CountParams() returns (n: nat)
      ensures n == if irFn == [] then 0 else Lowering.CountParams(irFn[0].instrs)
    {
      n := 0;
      if irFn != [] {
        var entry := irFn[0].instrs;
        for k := 0 to |entry|
          invariant n == Lowering.CountParams(entry[..k])
        {
          assert entry[..k + 1][..k] == entry[..k];
          if entry[k].op.Param? {
            n := n + 1;
          }
        }
        assert entry[..|entry|] == entry;
      }
    }

    // Whether some Ret carries a value.
    method HasReturnValue() returns (found: bool)
      ensures found == ReturnsValue(irFn)
    {
      found := false;
      for b := 0 to |irFn|
        invariant found == ReturnsValue(irFn[..b])
      {
        assert irFn[..b + 1][..b] == irFn[..b];
        var instrs := irFn[b].instrs;
        var here := false;
        for i := 0 to |instrs|
          invariant here == ReturnsIn(instrs[..i])
        {
          assert instrs[..i + 1][..i] == instrs[..i];
          here := here || (instrs[i].op.Ret? && instrs[i].operands != []);
        }
        assert instrs[..|instrs|] == instrs;
        found := found || here;
      }
      assert irFn[..|irFn|] == irFn;
    }

    method CreateBlocks()
      modifies `blocks, `lowered
      ensures blocks == BlockMap(irFn) && lowered == Begin(irFn).lowered
    {
      blocks, lowered := map[], [];
      for b := 0 to |irFn|
        invariant blocks == BlockMap(irFn[..b]) && lowered == seq(b, i => [])
      {
        assert irFn[..b + 1][..b] == irFn[..b];
        blocks := blocks[irFn[b].name := b];
        lowered := lowered + [[]];
      }
      assert irFn[..|irFn|] == irFn;
    }

    // Append at the insertion point.
    method Put(i: Llvm.LInstr)
      modifies `lowered
      ensures State() == Lowering.Put(old(State()), i)
    {
      if cur < |lowered| {
        lowered := lowered[cur := lowered[cur] + [i]];
      }
    }

    // Append an instruction that yields a value.
    method Insert(i: Llvm.LInstr)
      modifies `lowered, `next
      ensures State() == Lowering.Put(Take(old(State())), i)
    {
      next := next + 1;
      Put(i);
    }

    method Resolve(o: Operand) returns (v: Llvm.Value)
      modifies `lowered, `next
      ensures Built(State(), v) == Lowering.Resolve(o, old(State()))
    {
      match o
      case Reg(r) =>
        if r in regs {
          v := regs[r];
        } else {
          v := Llvm.Undef;
        }
      case IntImm(n) => v := Llvm.Const(n);
      case FloatImm(t) => v := Llvm.ConstDouble(t);
      case BoolImm(b) => v := Llvm.Const(if b then 1 else 0);
      case StringRef(t) =>
        v := Llvm.Inst(next, Llvm.Pointer);
        Insert(Llvm.StrPtr(next, t));
    }

    method ResolveAt(i: Instr, k: nat) returns (v: Llvm.Value)
      modifies `lowered, `next
      ensures Built(State(), v) == Lowering.ResolveAt(i, k, old(State()))
    {
      if k < |i.operands| {
        v := Resolve(i.operands[k]);
      } else {
        v := Llvm.Undef;
      }
    }

    method ResolveAll(os: seq<Operand>) returns (vs: seq<Llvm.Value>)
      modifies `lowered, `next
      ensures (State(), vs) == Lowering.ResolveAll(os, old(State()))
    {
      vs := [];
      assert os[0..] == os;
      ghost var all := Lowering.ResolveAll(os, State());
      assert [] + all.1 == all.1;
      for k := 0 to |os|
        invariant var rest := Lowering.ResolveAll(os[k..], State());
                  all == (rest.0, vs + rest.1)
      {
        assert os[k..][1..] == os[k + 1..];
        label before:
        var v := Resolve(os[k]);
        var rest := Lowering.ResolveAll(os[k + 1..], State());
        assert Lowering.ResolveAll(os[k..], old@before(State())) == (rest.0, [v] + rest.1);
        assert vs + ([v] + rest.1) == (vs + [v]) + rest.1;
        vs := vs + [v];
      }
      assert os[|os|..] == [] && vs + [] == vs;
    }

    // Zero-extend an i1; other values stay.
    method WidenToI64(v: Llvm.Value) returns (w: Llvm.Value)
      modifies `lowered, `next
      ensures Built(State(), w) == Widen(Built(old(State()), v))
    {
      w := v;
      if Llvm.TypeOf(v) == Llvm.I1 {
        w := Llvm.Inst(next, Llvm.I64);
        Insert(Llvm.ZExt(next, v));
      }
    }

    // Compare with 0; an i1 stays.
    method ToI1(v: Llvm.Value) returns (w: Llvm.Value)
      modifies `lowered, `next
      ensures Built(State(), w) == Lowering.ToI1(v, old(State()))
    {
      w := v;
      if Llvm.TypeOf(v) != Llvm.I1 {
        w := Llvm.Inst(next, Llvm.I1);
        Insert(Llvm.ICmp(next, Llvm.NE, v, Llvm.Const(0)));
      }
    }

    method CreateBin(op: Llvm.BinOp, a: Llvm.Value, b: Llvm.Value) returns (v: Llvm.Value)
      modifies `lowered, `next
      ensures Built(State(), v) == Arithmetic(op, a, b, old(State()))
    {
      v := Llvm.Inst(next, Llvm.TypeOf(a));
      Insert(Llvm.Bin(next, op, a, b));
    }

    method CreateICmp(pred: Llvm.Pred, a: Llvm.Value, b: Llvm.Value) returns (v: Llvm.Value)
      modifies `lowered, `next
      ensures Built(State(), v)
           == Built(Lowering.Put(Take(old(State())), Llvm.ICmp(old(next), pred, a, b)), Llvm.Inst(old(next), Llvm.I1))
    {
      v := Llvm.Inst(next, Llvm.I1);
      Insert(Llvm.ICmp(next, pred, a, b));
    }

    method EmitBinary(i: Instr)
      requires IsBinary(i.op)
      modifies `lowered, `next, `regs
      ensures State() == LowerBinary(i, old(State()))
    {
      var l := ResolveAt(i, 0);
      var r := ResolveAt(i, 1);
      var v: Llvm.Value;
      if ArithmeticOp(i.op).Some? {
        v := CreateBin(ArithmeticOp(i.op).value, l, r);
      } else if ComparePred(i.op).Some? {
        v := CreateICmp(ComparePred(i.op).value, l, r);
        v := WidenToI64(v);
      } else {
        l := ToI1(l);
        r := ToI1(r);
        v := CreateBin(if i.op.LogAnd? then Llvm.And else Llvm.Or, l, r);
        v := WidenToI64(v);
      }
      regs := regs[i.dest := v];
    }

    method EmitUnary(i: Instr)
      modifies `lowered, `next, `regs
      ensures State() == LowerUnary(i, old(State()))
    {
      var x := ResolveAt(i, 0);
      var v: Llvm.Value;
      if i.op.Neg? {
        v := CreateBin(Llvm.Sub, Llvm.Const(0), x);
      } else if i.op.BitNot? {
        v := CreateBin(Llvm.Xor, x, Llvm.Const(-1));
      } else {
        x := ToI1(x);
        v := Llvm.Inst(next, Llvm.I1);
        Insert(Llvm.Not(next, x));
        v := WidenToI64(v);
      }
      regs := regs[i.dest := v];
    }

    method EmitCall(i: Instr)
      modifies `lowered, `next, `regs
      ensures State() == LowerCall(i, Consts(), old(State()))
    {
      if i.tag == "exit" || i.tag == "escape" {
        var vs := ResolveAll(if i.operands == [] then [] else [i.operands[0]]);
        Put(Llvm.Exit(i.tag, vs));
        Put(Llvm.Unreachable);
      } else if i.tag == "wait" {
        var vs := ResolveAll(if i.operands == [] then [] else [i.operands[0]]);
        Put(Llvm.Sleep(vs));
      } else if (i.tag == "print" || i.tag == "println") && |i.operands| == 1 {
        var v := Resolve(i.operands[0]);
        Put(Llvm.Print(i.tag, v));
      } else {
        var vs := ResolveAll(i.operands);
        var isVoid := i.tag in voids;
        var v := Llvm.Inst(next, Llvm.I64);
        Insert(Llvm.Call(next, i.tag, vs, isVoid));
        if !isVoid && i.dest != NO_REG {
          regs := regs[i.dest := v];
        }
      }
    }

    method EmitMemory(i: Instr)
      requires i.op.Alloca? || i.op.Load? || i.op.Store?
      modifies `lowered, `next, `regs
      ensures State() == LowerMemory(i, old(State()))
    {
      if i.op.Alloca? {
        regs := regs[i.dest := Llvm.Inst(next, Llvm.Pointer)];
        Insert(Llvm.Alloca(next));
      } else if i.op.Load? {
        var v := Llvm.Undef;
        if i.operands != [] {
          var ptr := Resolve(i.operands[0]);
          v := Llvm.Inst(next, Llvm.I64);
          Insert(Llvm.Load(next, ptr));
        }
        if i.dest != NO_REG {
          regs := regs[i.dest := v];
        }
      } else if |i.operands| >= 2 {
        var value := Resolve(i.operands[0]);
        var ptr := Resolve(i.operands[1]);
        Put(Llvm.Store(value, ptr));
      }
    }

    method EmitJump(i: Instr)
      requires i.op.Ret? || i.op.Branch? || i.op.CondBranch?
      modifies `lowered, `next, `failed
      ensures State() == LowerJump(i, Consts(), old(State()))
    {
      if i.op.Ret? {
        if retVoid {
          Put(Llvm.RetVoid);
        } else if i.operands == [] {
          Put(Llvm.Unreachable);
        } else {
          var v := Resolve(i.operands[0]);
          Put(Llvm.Ret(v));
        }
      } else if i.op.Branch? {
        if i.tag in blocks {
          Put(Llvm.Br(blocks[i.tag]));
        }
      } else {
        match SplitTargets(i.tag)
        case None =>
        case Some((t, e)) =>
          if i.operands != [] {
            var v := Resolve(i.operands[0]);
            var cond := ToI1(v);
            if t in blocks && e in blocks {
              Put(Llvm.CondBr(cond, blocks[t], blocks[e]));
            } else {
              failed := true;
            }
          }
      }
    }

    method Emit(i: Instr)
      modifies `lowered, `next, `regs, `failed
      ensures State() == LowerInstr(i, Consts(), old(State()))
    {
      if i.op.Alloca? || i.op.Load? || i.op.Store? {
        EmitMemory(i);
      } else if i.op.Ret? || i.op.Branch? || i.op.CondBranch? {
        EmitJump(i);
      } else if i.op.Call? {
        EmitCall(i);
      } else if i.op.Param? {
        if i.operands != [] && i.operands[0].IntImm? && i.operands[0].value >= 0 {
          regs := regs[i.dest := Llvm.Arg(i.operands[0].value)];
        }
      } else if i.op.Copy? || i.op.Cast? {
        EmitCopy(i);
      } else if IsBinary(i.op) {
        EmitBinary(i);
      } else if !i.op.Phi? {
        EmitUnary(i);
      }
    }

    method EmitCopy(i: Instr)
      requires i.op.Copy? || i.op.Cast?
      modifies `lowered, `next, `regs
      ensures State() == LowerInstr(i, Consts(), old(State()))
    {
      if i.operands != [] && i.dest != NO_REG {
        var v := Resolve(i.operands[0]);
        regs := regs[i.dest := v];
      }
    }

    function HasTerminator(): bool
      reads this
    {
      Ended(State())
    }

    // Instructions up to the first terminator that is emitted.
    method EmitBlock(b: BasicBlock)
      modifies `lowered, `next, `regs, `failed, `cur
      ensures State() == LowerBlock(b, Consts(), old(State()))
    {
      cur := if b.name in blocks then blocks[b.name] else |lowered|;
      EmitCode(b.instrs);
      if !HasTerminator() {
        Put(if retVoid then Llvm.RetVoid else Llvm.Unreachable);
      }
    }

    method EmitCode(code: seq<Instr>)
      modifies `lowered, `next, `regs, `failed
      ensures State() == LowerCode(code, Consts(), old(State()))
    {
      var k := 0;
      while k < |code| && !HasTerminator()
        invariant k <= |code|
        invariant State() == LowerCode(code[..k], Consts(), old(State()))
      {
        NextCode(code, k, Consts(), old(State()));
        Emit(code[k]);
        k := k + 1;
      }
      EndedCode(code, k, Consts(), old(State()));
    }

    // Lower the whole function.
    method Lower()
      modifies this
      ensures State() == Lowering.Lower(irFn, voids)
    {
      var hasValue := HasReturnValue();
      retVoid := !hasValue;
      regs, cur, next, failed := map[], 0, 0, false;
      CreateBlocks();
      ghost var start := State();
      for b := 0 to |irFn|
        invariant Consts() == FixedFor(irFn, voids)
        invariant State() == LowerBlocks(irFn[..b], Consts(), start)
      {
        assert irFn[..b + 1][..b] == irFn[..b];
        EmitBlock(irFn[b]);
      }
      assert irFn[..|irFn|] == irFn;
    }
  }

  lemma NextCode(code: seq<Instr>, k: nat, f: Fixed, s: Low)
    requires k < |code| && !Ended(LowerCode(code[..k], f, s))
    ensures LowerCode(code[..k + 1], f, s) == LowerInstr(code[k], f, LowerCode(code[..k], f, s))
  {
    assert code[..k + 1][..k] == code[..k];
  }

  // Once the target block has a terminator the rest of the code adds nothing.
  lemma {:induction false} EndedCode(code: seq<Instr>, k: nat, f: Fixed, s: Low)
    requires k <= |code| && (k == |code| || Ended(LowerCode(code[..k], f, s)))
    ensures LowerCode(code, f, s) == LowerCode(code[..k], f, s)
    decreases |code|
  {
    if k == |code| {
      assert code[..k] == code;
    } else {
      var init := code[..|code| - 1];
      assert init[..k] == code[..k];
      EndedCode(init, k, f, s);
    }
  }
}
