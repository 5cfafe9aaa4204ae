// What the target machine does with the instructions emitted for one instruction of the
// intermediate representation.
module LoweringSteps {
  import opened Common
  import opened Ir
  import opened Lowering
  import opened LoweringFrame
  import opened LoweringStates
  import Int64
  import IrMachine
  import L = Llvm

  // A target value stands for a number or an address.
  ghost predicate Means(v: L.Value, x: IrMachine.Val, args: seq<int>, env: map<nat, L.Val>) {
    match x
    case Num(n) => L.TypeOf(v) == L.I64 && L.Denote(v, args, env) == Some(L.V64(n))
    case Ptr(a) => L.TypeOf(v) == L.Pointer && L.Denote(v, args, env) == Some(L.VPtr(a))
  }

  ghost predicate SameValues(regs: map<RegID, IrMachine.Val>, fin: map<RegID, L.Value>, args: seq<int>, env: map<nat,
                             L.Val>) {
    forall r :: r in regs && r in fin ==> Means(fin[r], regs[r], args, env)
  }

  // The machine is at the end of what has been lowered.
  ghost predicate Here(m: L.Machine, s: Low, d: L.Config) {
    d.Running? && s.cur < |s.lowered| && d.block == s.cur && d.pc == |s.lowered[s.cur]|
  }

  // What has been lowered is part of the program.
  ghost predicate Ahead(m: L.Machine, s: Low) {
    s.cur < |s.lowered| && s.cur < |m.p.code| && s.lowered[s.cur] <= m.p.code[s.cur]
  }

  lemma AheadBefore(m: L.Machine, s: Low, t: Low)
    requires Emits(s, t) && Ahead(m, t)
    ensures Ahead(m, s)
  {
  }

  lemma PutRuns(m: L.Machine, s: Low, i: L.LInstr, d: L.Config)
    requires Here(m, s, d) && Ahead(m, Put(s, i))
    ensures L.Run(m, d, 1) == L.Exec(i, m.p, d)
  {
    var code := Put(s, i).lowered[s.cur];
    assert code[|s.lowered[s.cur]|] == i;
    L.OneStep(m, d);
  }

  // Only the identifiers lo..hi may have changed.
  ghost predicate Keeps(d: L.Config, e: L.Config, lo: nat, hi: nat) {
    && d.Running? && e.Running? && e.block == d.block && e.mem == d.mem && e.trace == d.trace
    && forall id :: !(lo <= id < hi) ==> (id in e.env <==> id in d.env) && (id in d.env ==> e.env[id] == d.env[id])
  }

  lemma DenoteKept(v: L.Value, s: Low, args: seq<int>, d: L.Config, e: L.Config, hi: nat)
    requires Old(v, s) && Keeps(d, e, s.next, hi)
    ensures L.Denote(v, args, e.env) == L.Denote(v, args, d.env)
  {
  }

  // An instruction that defines the next identifier.
  lemma DefineRuns(m: L.Machine, s: Low, i: L.LInstr, d: L.Config, v: L.Val)
    requires Here(m, s, d) && Ahead(m, Put(Take(s), i)) && L.Exec(i, m.p, d) == L.Define(d, s.next, v)
    ensures var e := L.Run(m, d, 1);
            && Here(m, Put(Take(s), i), e) && Keeps(d, e, s.next, s.next + 1)
            && s.next in e.env && e.env[s.next] == v
  {
    assert Put(Take(s), i).lowered == Put(s, i).lowered;
    PutRuns(m, s, i, d);
  }

  // After k steps the value is there.
  ghost predicate Computes(m: L.Machine, s: Low, b: Built, d: L.Config, k: nat, v: L.Val) {
    var e := L.Run(m, d, k);
    && Here(m, b.s, e) && Keeps(d, e, s.next, b.s.next)
    && L.Denote(b.v, m.p.args, e.env) == Some(v)
  }

  lemma Then(m: L.Machine, s: Low, t: Low, b: Built, d: L.Config, k: nat, j: nat, v: L.Val)
    requires Keeps(d, L.Run(m, d, k), s.next, t.next) && Computes(m, t, b, L.Run(m, d, k), j, v)
    requires s.next <= t.next <= b.s.next
    ensures Computes(m, s, b, d, k + j, v)
  {
    L.RunAdd(m, d, k, j);
  }

  lemma ArithmeticRuns(m: L.Machine, op: L.BinOp, a: L.Value, b: L.Value, s: Low, d: L.Config, x: int, y: int)
    requires Here(m, s, d) && Ahead(m, Arithmetic(op, a, b, s).s)
    requires L.Num(a, m.p, d) == Some(x) && L.Num(b, m.p, d) == Some(y)
    ensures match L.BinValue(op, x, y)
            case Some(v) => Computes(m, s, Arithmetic(op, a, b, s), d, 1, L.V64(v))
            case None => L.Run(m, d, 1) == L.Undefined
  {
    var i := L.Bin(s.next, op, a, b);
    assert Put(Take(s), i).lowered == Put(s, i).lowered;
    PutRuns(m, s, i, d);
    if L.BinValue(op, x, y).Some? {
      DefineRuns(m, s, i, d, L.V64(L.BinValue(op, x, y).value));
    }
  }

  lemma WidenRuns(m: L.Machine, b: Built, d: L.Config, v: bool)
    requires Here(m, b.s, d) && Ahead(m, Widen(b).s) && L.TypeOf(b.v) == L.I1
    requires L.Denote(b.v, m.p.args, d.env) == Some(L.V1(v))
    ensures Computes(m, b.s, Widen(b), d, 1, L.V64(Int64.Truth(v)))
  {
    DefineRuns(m, b.s, L.ZExt(b.s.next, b.v), d, L.V64(Int64.Truth(v)));
  }

  lemma ICmpRuns(m: L.Machine, pred: L.Pred, a: L.Value, b: L.Value, s: Low, d: L.Config, x: int, y: int)
    requires Here(m, s, d) && Ahead(m, Put(Take(s), L.ICmp(s.next, pred, a, b)))
    requires L.Num(a, m.p, d) == Some(x) && L.Num(b, m.p, d) == Some(y)
    ensures Computes(m, s, Built(Put(Take(s), L.ICmp(s.next, pred, a, b)), L.Inst(s.next, L.I1)), d, 1,
                     L.V1(L.Holds(pred, x, y)))
  {
    DefineRuns(m, s, L.ICmp(s.next, pred, a, b), d, L.V1(L.Holds(pred, x, y)));
  }

  lemma CompareRuns(m: L.Machine, pred: L.Pred, a: L.Value, b: L.Value, s: Low, d: L.Config, x: int, y: int)
    requires Here(m, s, d) && Ahead(m, Compare(pred, a, b, s).s)
    requires L.Num(a, m.p, d) == Some(x) && L.Num(b, m.p, d) == Some(y)
    ensures Computes(m, s, Compare(pred, a, b, s), d, 2, L.V64(Int64.Truth(L.Holds(pred, x, y))))
  {
    var c := Built(Put(Take(s), L.ICmp(s.next, pred, a, b)), L.Inst(s.next, L.I1));
    PutStraight(c.s, L.ZExt(c.s.next, c.v));
    AheadBefore(m, c.s, Widen(c).s);
    ICmpRuns(m, pred, a, b, s, d, x, y);
    WidenRuns(m, c, L.Run(m, d, 1), L.Holds(pred, x, y));
    Then(m, s, c.s, Widen(c), d, 1, 1, L.V64(Int64.Truth(L.Holds(pred, x, y))));
  }

  lemma ToI1Runs(m: L.Machine, v: L.Value, s: Low, d: L.Config, x: int)
    requires Here(m, s, d) && Ahead(m, ToI1(v, s).s) && L.TypeOf(v) == L.I64 && L.Num(v, m.p, d) == Some(x)
    ensures Computes(m, s, ToI1(v, s), d, 1, L.V1(x != 0)) && L.TypeOf(ToI1(v, s).v) == L.I1
  {
    ICmpRuns(m, L.NE, v, L.Const(0), s, d, x, 0);
  }

  lemma BothRun(m: L.Machine, a: L.Value, b: L.Value, s: Low, d: L.Config, x: int, y: int)
    requires Here(m, s, d) && Ahead(m, ToI1(b, ToI1(a, s).s).s) && Old(b, s)
    requires L.TypeOf(a) == L.I64 && L.Num(a, m.p, d) == Some(x) && L.TypeOf(b) == L.I64 && L.Num(b, m.p, d) == Some(y)
    ensures var l := ToI1(a, s);
            var r := ToI1(b, l.s);
            var e := L.Run(m, d, 2);
            && Computes(m, s, r, d, 2, L.V1(y != 0)) && L.Denote(l.v, m.p.args, e.env) == Some(L.V1(x != 0))
            && L.TypeOf(l.v) == L.I1 && L.TypeOf(r.v) == L.I1
  {
    var l := ToI1(a, s);
    var r := ToI1(b, l.s);
    ToI1Straight(b, l.s);
    AheadBefore(m, l.s, r.s);
    ToI1Runs(m, a, s, d, x);
    var d1 := L.Run(m, d, 1);
    DenoteKept(b, s, m.p.args, d, d1, l.s.next);
    ToI1Runs(m, b, l.s, d1, y);
    Then(m, s, l.s, r, d, 1, 1, L.V1(y != 0));
    L.RunAdd(m, d, 1, 1);
    DenoteKept(l.v, l.s, m.p.args, d1, L.Run(m, d1, 1), r.s.next);
  }

  function LogicValue(op: L.BinOp, x: bool, y: bool): bool {
    if op.And? then x && y else x || y
  }

  lemma BitRuns(m: L.Machine, op: L.BinOp, a: L.Value, b: L.Value, s: Low, d: L.Config, x: bool, y: bool)
    requires op.And? || op.Or?
    requires Here(m, s, d) && Ahead(m, Arithmetic(op, a, b, s).s)
    requires L.Denote(a, m.p.args, d.env) == Some(L.V1(x)) && L.Denote(b, m.p.args, d.env) == Some(L.V1(y))
    ensures Computes(m, s, Arithmetic(op, a, b, s), d, 1, L.V1(LogicValue(op, x, y)))
  {
    var i := L.Bin(s.next, op, a, b);
    assert L.Exec(i, m.p, d) == L.ExecBin(i, m.p, d);
    DefineRuns(m, s, i, d, L.V1(LogicValue(op, x, y)));
  }

  lemma LogicalRuns(m: L.Machine, op: L.BinOp, a: L.Value, b: L.Value, s: Low, d: L.Config, x: int, y: int)
    requires op.And? || op.Or?
    requires Here(m, s, d) && Ahead(m, Logical(op, a, b, s).s) && Old(b, s)
    requires L.TypeOf(a) == L.I64 && L.Num(a, m.p, d) == Some(x) && L.TypeOf(b) == L.I64 && L.Num(b, m.p, d) == Some(y)
    ensures Computes(m, s, Logical(op, a, b, s), d, 4, L.V64(Int64.Truth(LogicValue(op, x != 0, y != 0))))
  {
    var l := ToI1(a, s);
    var r := ToI1(b, l.s);
    var z := Arithmetic(op, l.v, r.v, r.s);
    var v := LogicValue(op, x != 0, y != 0);
    PutStraight(r.s, L.Bin(r.s.next, op, l.v, r.v));
    PutStraight(z.s, L.ZExt(z.s.next, z.v));
    AheadBefore(m, z.s, Widen(z).s);
    AheadBefore(m, r.s, z.s);
    BothRun(m, a, b, s, d, x, y);
    var d2 := L.Run(m, d, 2);
    BitRuns(m, op, l.v, r.v, r.s, d2, x != 0, y != 0);
    Then(m, s, r.s, z, d, 2, 1, L.V1(v));
    WidenRuns(m, z, L.Run(m, d, 3), v);
    Then(m, s, z.s, Widen(z), d, 3, 1, L.V64(Int64.Truth(v)));
  }

  lemma LogicalNotRuns(m: L.Machine, a: L.Value, s: Low, d: L.Config, x: int)
    requires Here(m, s, d) && Ahead(m, LogicalNot(a, s).s)
    requires L.TypeOf(a) == L.I64 && L.Num(a, m.p, d) == Some(x)
    ensures Computes(m, s, LogicalNot(a, s), d, 3, L.V64(Int64.Truth(x == 0)))
  {
    var l := ToI1(a, s);
    var i := L.Not(l.s.next, l.v);
    var z := Built(Put(Take(l.s), i), L.Inst(l.s.next, L.I1));
    PutStraight(l.s, i);
    PutStraight(z.s, L.ZExt(z.s.next, z.v));
    AheadBefore(m, z.s, Widen(z).s);
    AheadBefore(m, l.s, z.s);
    ToI1Runs(m, a, s, d, x);
    DefineRuns(m, l.s, i, L.Run(m, d, 1), L.V1(x == 0));
    Then(m, s, l.s, z, d, 1, 1, L.V1(x == 0));
    WidenRuns(m, z, L.Run(m, d, 2), x == 0);
    Then(m, s, z.s, Widen(z), d, 2, 1, L.V64(Int64.Truth(x == 0)));
  }
}
