// What lowering one instruction changes: the current target block grows, and at most the
// destination register gets a value, with an identifier of its own.
module LoweringFrame {
  import opened Ir
  import opened Dataflow
  import opened Lowering
  import Llvm

  // Instructions were added to the current target block; no register has changed.
  ghost predicate Emits(s: Low, t: Low) {
    && s.cur < |s.lowered| && t.cur == s.cur && t.regs == s.regs && s.next <= t.next
    && |t.lowered| == |s.lowered| && s.lowered[s.cur] <= t.lowered[s.cur]
    && forall k :: 0 <= k < |s.lowered| && k != s.cur ==> t.lowered[k] == s.lowered[k]
  }

  // None of them is a terminator.
  ghost predicate Straight(s: Low, t: Low) {
    Emits(s, t) &&
    forall k :: |s.lowered[s.cur]| <= k < |t.lowered[s.cur]| ==> !Llvm.IsTerminator(t.lowered[s.cur][k])
  }

  lemma StraightTrans(s: Low, t: Low, u: Low)
    requires Straight(s, t) && Straight(t, u)
    ensures Straight(s, u)
  {
    forall k | |s.lowered[s.cur]| <= k < |u.lowered[s.cur]|
      ensures !Llvm.IsTerminator(u.lowered[s.cur][k])
    {
      if k < |t.lowered[s.cur]| {
        assert u.lowered[s.cur][k] == t.lowered[s.cur][k];
      }
    }
  }

  lemma PutStraight(s: Low, i: Llvm.LInstr)
    requires s.cur < |s.lowered| && !Llvm.IsTerminator(i)
    ensures Straight(s, Put(Take(s), i)) && Straight(s, Put(s, i))
  {
  }

  lemma ResolveStraight(o: Operand, s: Low)
    requires s.cur < |s.lowered|
    ensures Straight(s, Resolve(o, s).s)
  {
  }

  lemma {:induction false} ResolveAllStraight(os: seq<Operand>, s: Low)
    requires s.cur < |s.lowered|
    ensures Straight(s, ResolveAll(os, s).0)
  {
    if os != [] {
      var a := Resolve(os[0], s);
      ResolveStraight(os[0], s);
      ResolveAllStraight(os[1..], a.s);
      StraightTrans(s, a.s, ResolveAll(os, s).0);
    }
  }

  // A value computed after s with an identifier handed out after s.
  ghost predicate Fresh(s: Low, b: Built) {
    Straight(s, b.s) && (b.v.Inst? ==> s.next <= b.v.id < b.s.next)
  }

  lemma FreshAfter(s: Low, t: Low, b: Built)
    requires Straight(s, t) && Fresh(t, b)
    ensures Fresh(s, b)
  {
    StraightTrans(s, t, b.s);
  }

  lemma WidenFresh(s: Low, b: Built)
    requires Fresh(s, b)
    ensures Fresh(s, Widen(b))
  {
    if Llvm.TypeOf(b.v) == Llvm.I1 {
      PutStraight(b.s, Llvm.ZExt(b.s.next, b.v));
      StraightTrans(s, b.s, Widen(b).s);
    }
  }

  lemma ToI1Straight(v: Llvm.Value, s: Low)
    requires s.cur < |s.lowered|
    ensures Straight(s, ToI1(v, s).s)
  {
  }

  lemma ArithmeticFresh(op: Llvm.BinOp, a: Llvm.Value, b: Llvm.Value, s: Low)
    requires s.cur < |s.lowered|
    ensures Fresh(s, Arithmetic(op, a, b, s))
  {
    PutStraight(s, Llvm.Bin(s.next, op, a, b));
  }

  lemma CompareFresh(pred: Llvm.Pred, a: Llvm.Value, b: Llvm.Value, s: Low)
    requires s.cur < |s.lowered|
    ensures Fresh(s, Compare(pred, a, b, s))
  {
    var c := Built(Put(Take(s), Llvm.ICmp(s.next, pred, a, b)), Llvm.Inst(s.next, Llvm.I1));
    PutStraight(s, Llvm.ICmp(s.next, pred, a, b));
    WidenFresh(s, c);
  }

  lemma LogicalFresh(op: Llvm.BinOp, a: Llvm.Value, b: Llvm.Value, s: Low)
    requires s.cur < |s.lowered|
    ensures Fresh(s, Logical(op, a, b, s))
  {
    var l := ToI1(a, s);
    var r := ToI1(b, l.s);
    ToI1Straight(a, s);
    ToI1Straight(b, l.s);
    StraightTrans(s, l.s, r.s);
    ArithmeticFresh(op, l.v, r.v, r.s);
    FreshAfter(s, r.s, Arithmetic(op, l.v, r.v, r.s));
    WidenFresh(s, Arithmetic(op, l.v, r.v, r.s));
  }

  lemma LogicalNotFresh(a: Llvm.Value, s: Low)
    requires s.cur < |s.lowered|
    ensures Fresh(s, LogicalNot(a, s))
  {
    var x := ToI1(a, s);
    ToI1Straight(a, s);
    var n := Built(Put(Take(x.s), Llvm.Not(x.s.next, x.v)), Llvm.Inst(x.s.next, Llvm.I1));
    PutStraight(x.s, Llvm.Not(x.s.next, x.v));
    FreshAfter(s, x.s, n);
    WidenFresh(s, n);
  }

  // What an instruction computes for its destination, if it does.
  datatype Effect = Nothing(s: Low) | Sets(b: Built)

  ghost predicate Lowers(i: Instr, s: Low, e: Effect, t: Low) {
    match e
    case Nothing(u) => Straight(s, u) && t == u
    case Sets(b) => Fresh(s, b) && t == SetReg(b.s, i.dest, b.v) && i.dest != NO_REG
  }

  lemma BinaryLowers(i: Instr, s: Low) returns (e: Effect)
    requires s.cur < |s.lowered| && IsBinary(i.op) && i.dest != NO_REG
    ensures e.Sets? && Lowers(i, s, e, LowerBinary(i, s))
  {
    var a := ResolveAt(i, 0, s);
    var b := ResolveAt(i, 1, a.s);
    assert Straight(s, a.s) && Straight(a.s, b.s);
    StraightTrans(s, a.s, b.s);
    var z: Built;
    if ArithmeticOp(i.op).Some? {
      z := Arithmetic(ArithmeticOp(i.op).value, a.v, b.v, b.s);
      ArithmeticFresh(ArithmeticOp(i.op).value, a.v, b.v, b.s);
    } else if ComparePred(i.op).Some? {
      z := Compare(ComparePred(i.op).value, a.v, b.v, b.s);
      CompareFresh(ComparePred(i.op).value, a.v, b.v, b.s);
    } else {
      var op := if i.op.LogAnd? then Llvm.And else Llvm.Or;
      z := Logical(op, a.v, b.v, b.s);
      LogicalFresh(op, a.v, b.v, b.s);
    }
    FreshAfter(s, b.s, z);
    e := Sets(z);
  }

  lemma UnaryLowers(i: Instr, s: Low) returns (e: Effect)
    requires s.cur < |s.lowered| && i.dest != NO_REG
    ensures e.Sets? && Lowers(i, s, e, LowerUnary(i, s))
  {
    var a := ResolveAt(i, 0, s);
    assert Straight(s, a.s);
    var z := UnaryBuilt(i.op, a.v, a.s);
    UnaryFresh(i.op, a.v, a.s);
    FreshAfter(s, a.s, z);
    e := Sets(z);
  }

  lemma UnaryFresh(op: Opcode, a: Llvm.Value, s: Low)
    requires s.cur < |s.lowered|
    ensures Fresh(s, UnaryBuilt(op, a, s))
  {
    if op.Neg? {
      ArithmeticFresh(Llvm.Sub, Llvm.Const(0), a, s);
    } else if op.BitNot? {
      ArithmeticFresh(Llvm.Xor, a, Llvm.Const(-1), s);
    } else {
      LogicalNotFresh(a, s);
    }
  }

  lemma CallLowers(i: Instr, f: Fixed, s: Low) returns (e: Effect)
    requires s.cur < |s.lowered| && i.dest != NO_REG && i.op.Call? && i.tag !in {"exit", "escape", "wait"}
    ensures Lowers(i, s, e, LowerCall(i, f, s))
    ensures i.tag !in f.voids + {"print", "println"} ==> e.Sets?
  {
    if IsPrint(i) {
      var a := Resolve(i.operands[0], s);
      PutStraight(a.s, Llvm.Print(i.tag, a.v));
      StraightTrans(s, a.s, LowerCall(i, f, s));
      e := Nothing(LowerCall(i, f, s));
    } else {
      var args := ResolveAll(i.operands, s);
      ResolveAllStraight(i.operands, s);
      var isVoid := i.tag in f.voids;
      var s1 := Put(Take(args.0), Llvm.Call(args.0.next, i.tag, args.1, isVoid));
      PutStraight(args.0, Llvm.Call(args.0.next, i.tag, args.1, isVoid));
      StraightTrans(s, args.0, s1);
      e := if isVoid then Nothing(s1) else Sets(Built(s1, Llvm.Inst(args.0.next, Llvm.I64)));
    }
  }

  lemma MemoryLowers(i: Instr, s: Low) returns (e: Effect)
    requires s.cur < |s.lowered| && (i.dest == NO_REG <==> i.op.Store?) && (i.op.Alloca? || i.op.Load? || i.op.Store?)
    ensures Lowers(i, s, e, LowerMemory(i, s))
    ensures !i.op.Store? ==> e.Sets?
  {
    match i.op
    case Alloca =>
      PutStraight(s, Llvm.Alloca(s.next));
      e := Sets(Built(Put(Take(s), Llvm.Alloca(s.next)), Llvm.Inst(s.next, Llvm.Pointer)));
    case Load => e := LoadLowers(i, s);
    case Store =>
      StoreLowers(i, s);
      e := Nothing(LowerMemory(i, s));
  }

  lemma LoadLowers(i: Instr, s: Low) returns (e: Effect)
    requires s.cur < |s.lowered| && i.op.Load? && i.dest != NO_REG
    ensures e.Sets? && Lowers(i, s, e, LowerMemory(i, s))
  {
    if i.operands != [] {
      var a := Resolve(i.operands[0], s);
      ResolveStraight(i.operands[0], s);
      var s1 := Put(Take(a.s), Llvm.Load(a.s.next, a.v));
      PutStraight(a.s, Llvm.Load(a.s.next, a.v));
      StraightTrans(s, a.s, s1);
      e := Sets(Built(s1, Llvm.Inst(a.s.next, Llvm.I64)));
    } else {
      e := Sets(Built(s, Llvm.Undef));
    }
  }

  lemma StoreLowers(i: Instr, s: Low)
    requires s.cur < |s.lowered| && i.op.Store?
    ensures Straight(s, LowerMemory(i, s))
  {
    if |i.operands| >= 2 {
      var a := Resolve(i.operands[0], s);
      var b := Resolve(i.operands[1], a.s);
      ResolveStraight(i.operands[0], s);
      ResolveStraight(i.operands[1], a.s);
      StraightTrans(s, a.s, b.s);
      PutStraight(b.s, Llvm.Store(a.v, b.v));
      StraightTrans(s, b.s, LowerMemory(i, s));
    }
  }

  // An instruction of tracked code that is not a terminator.
  lemma InstrLowers(i: Instr, f: Fixed, s: Low) returns (e: Effect)
    requires s.cur < |s.lowered| && Shaped(i) && !IsTerminator(i)
    requires i.op.Call? ==> i.tag !in {"exit", "escape", "wait"}
    ensures Lowers(i, s, e, LowerInstr(i, f, s))
    ensures Yields(i, f.voids + {"print", "println"}) ==> e.Sets?
  {
    if i.op.Alloca? || i.op.Load? || i.op.Store? {
      e := MemoryLowers(i, s);
    } else if i.op.Call? {
      e := CallLowers(i, f, s);
    } else if i.op.Param? {
      e := Sets(Built(s, Llvm.Arg(i.operands[0].value)));
    } else if i.op.Copy? {
      var a := Resolve(i.operands[0], s);
      e := Sets(a);
    } else if IsBinary(i.op) {
      e := BinaryLowers(i, s);
    } else {
      e := UnaryLowers(i, s);
    }
  }
}
