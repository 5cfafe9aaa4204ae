// What holds of the code of every function, whatever its body.
module GeneratedCode {
  import opened Ast
  import opened Ir
  import opened Labels
  import opened Codegen
  import opened Cfg
  import opened GenLaws
  import opened Numbering
  import opened Lowering

  lemma AppendSplits(code: seq<Instr>, i: Instr)
    ensures (code + [i])[..|code|] == code && (code + [i])[|code|] == i
  {
  }

  // Registers.

  ghost predicate CountsUp(g: Gen) {
    && Numbered(g.done) && InRow(g.code, TopIn(g.done))
    && Top(g.code, TopIn(g.done)) == g.regs
  }

  ghost const NUMBERING := Law(CountsUp, (g, r) => true, t => true, true)

  lemma CountsOn(g: Gen, i: Instr)
    requires CountsUp(g) && (i.dest == NO_REG || i.dest == g.regs + 1)
    ensures CountsUp(Append(g, i).(regs := if i.dest == NO_REG then g.regs else i.dest))
  {
    AppendSplits(g.code, i);
  }

  lemma CountsBlock(g: Gen, name: string)
    requires CountsUp(g)
    ensures CountsUp(StartBlock(g, name))
  {
    var b := BasicBlock(g.here, g.code);
    assert (g.done + [b])[..|g.done|] == g.done && (g.done + [b])[|g.done|] == b;
  }

  lemma NumberingKept()
    ensures Kept(NUMBERING)
  {
    forall g, op, os, tag | CountsUp(g) && Ordinary(NUMBERING, op) ensures CountsUp(Build(g, op, os, tag).g) {
      CountsOn(g, Instr(op, g.regs + 1, os, tag));
    }
    forall g, v, p | CountsUp(g) ensures CountsUp(EmitStore(g, v, p)) {
      CountsOn(g, Instr(Opcode.Store, NO_REG, [Reg(v), Reg(p)], ""));
    }
    forall g, i | CountsUp(g) && Jumps(NUMBERING, i) ensures CountsUp(Append(g, i)) {
      CountsOn(g, i);
    }
    forall g, name | CountsUp(g) ensures CountsUp(StartBlock(g, name)) {
      CountsBlock(g, name);
    }
  }

  lemma FunctionNumbered(f: FunctionDecl)
    ensures Numbered(GenFunction(f)) && TopIn(GenFunction(f)) == GenBody(f).regs
  {
    NumberingKept();
    FunctionFine(NUMBERING, f);
    var g := GenBody(f);
    var last := if IsTerminated(g.code) then g else EmitRet(g, NO_REG);
    CountsOn(g, Instr(Opcode.Ret, NO_REG, [], ""));
    CountsBlock(last, "");
    assert last.Blocks() == StartBlock(last, "").done;
  }

  // Every register is assigned by exactly one instruction.

  lemma SingleAssignment(f: FunctionDecl, b: nat, i: nat, c: nat, j: nat, r: RegID)
    requires Assigns(GenFunction(f), b, i, r) && Assigns(GenFunction(f), c, j, r)
    ensures b == c && i == j
  {
    FunctionNumbered(f);
    if b < c || (b == c && i < j) {
      OrderedAssignments(GenFunction(f), b, i, r, c, j, r);
    } else if c < b || (b == c && j < i) {
      OrderedAssignments(GenFunction(f), c, j, r, b, i, r);
    }
  }

  lemma EveryRegisterAssigned(f: FunctionDecl, r: RegID)
    ensures 1 <= r <= GenBody(f).regs <==> exists b, i :: Assigns(GenFunction(f), b, i, r)
  {
    FunctionNumbered(f);
    if 1 <= r <= GenBody(f).regs {
      var b, i := AssignedIn(GenFunction(f), r);
    }
    if b, i :| Assigns(GenFunction(f), b, i, r) {
      AssignedNext(GenFunction(f), b, i, r);
    }
  }

  // Stores.

  // Instruction i of block b.
  ghost predicate Stands(code: seq<BasicBlock>, b: nat, i: nat, x: Instr) {
    b < |code| && i < |code[b].instrs| && code[b].instrs[i] == x
  }

  ghost predicate IsSlot(code: seq<BasicBlock>, r: RegID) {
    exists b: nat, i: nat, x :: Stands(code, b, i, x) && x.op.Alloca? && x.dest == r
  }

  // A store writes through the register of an alloca.
  ghost predicate StoresToSlot(code: seq<BasicBlock>, x: Instr) {
    x.op.Store? ==> |x.operands| == 2 && x.operands[1].Reg? && IsSlot(code, x.operands[1].reg)
  }

  ghost predicate StoresToSlots(code: seq<BasicBlock>) {
    forall b: nat, i: nat, x :: Stands(code, b, i, x) ==> StoresToSlot(code, x)
  }

  // The blocks of h hold what those of g hold, and the instructions in `more`.
  ghost predicate Added(g: Gen, h: Gen, more: seq<Instr>) {
    && (forall b: nat, i: nat, x :: Stands(g.Blocks(), b, i, x) ==> Stands(h.Blocks(), b, i, x))
    && forall b: nat, i: nat, x :: Stands(h.Blocks(), b, i, x) ==> Stands(g.Blocks(), b, i, x) || x in more
  }

  lemma AppendAdds(g: Gen, i: Instr)
    ensures Added(g, Append(g, i), [i])
    ensures Stands(Append(g, i).Blocks(), |g.done|, |g.code|, i)
  {
    var h := Append(g, i);
    forall b: nat, k: nat, x ensures Stands(g.Blocks(), b, k, x) ==> Stands(h.Blocks(), b, k, x) {
    }
    forall b: nat, k: nat, x | Stands(h.Blocks(), b, k, x) ensures Stands(g.Blocks(), b, k, x) || x == i {
      if b == |g.done| && k == |g.code| {
        assert x == i;
      }
    }
  }

  lemma StartAdds(g: Gen, name: string)
    ensures Added(g, StartBlock(g, name), [])
  {
    var h := StartBlock(g, name);
    assert h.Blocks()[..|g.done| + 1] == g.Blocks();
  }

  ghost predicate SlotIn(g: Gen, r: RegID) {
    IsSlot(g.Blocks(), r)
  }

  lemma SlotKept(g: Gen, h: Gen, more: seq<Instr>, r: RegID)
    requires Added(g, h, more) && SlotIn(g, r)
    ensures SlotIn(h, r)
  {
    var b: nat, i: nat, x :| Stands(g.Blocks(), b, i, x) && x.op.Alloca? && x.dest == r;
    assert Stands(h.Blocks(), b, i, x);
  }

  lemma StoresKept(g: Gen, h: Gen, more: seq<Instr>)
    requires Added(g, h, more) && StoresToSlots(g.Blocks())
    requires forall x :: x in more && x.op.Store? ==>
      |x.operands| == 2 && x.operands[1].Reg? && SlotIn(g, x.operands[1].reg)
    ensures StoresToSlots(h.Blocks())
  {
    forall b: nat, i: nat, x | Stands(h.Blocks(), b, i, x) ensures StoresToSlot(h.Blocks(), x) {
      if x.op.Store? {
        if Stands(g.Blocks(), b, i, x) {
          assert StoresToSlot(g.Blocks(), x);
        }
        SlotKept(g, h, more, x.operands[1].reg);
      }
    }
  }

  ghost const STORES := Law((g: Gen) => StoresToSlots(g.Blocks()), SlotIn, t => true, true)

  // One instruction more.
  lemma StoresStep(g: Gen, i: Instr, h: Gen)
    requires StoresToSlots(g.Blocks()) && h.Blocks() == Append(g, i).Blocks()
    requires i.op.Store? ==> |i.operands| == 2 && i.operands[1].Reg? && SlotIn(g, i.operands[1].reg)
    ensures StoresToSlots(h.Blocks()) && forall r :: SlotIn(g, r) ==> SlotIn(h, r)
    ensures i.op.Alloca? ==> SlotIn(h, i.dest)
  {
    AppendAdds(g, i);
    StoresKept(g, Append(g, i), [i]);
    forall r | SlotIn(g, r) ensures SlotIn(h, r) {
      SlotKept(g, Append(g, i), [i], r);
    }
  }

  lemma StoresStart(g: Gen, name: string)
    requires StoresToSlots(g.Blocks())
    ensures StoresToSlots(StartBlock(g, name).Blocks()) && forall r :: SlotIn(g, r) ==> SlotIn(StartBlock(g, name), r)
  {
    StartAdds(g, name);
    StoresKept(g, StartBlock(g, name), []);
    forall r | SlotIn(g, r) ensures SlotIn(StartBlock(g, name), r) {
      SlotKept(g, StartBlock(g, name), [], r);
    }
  }

  lemma StoresBuildKept()
    ensures BuildKeeps(STORES)
  {
    forall g, op, os, tag | STORES.holds(g) && Ordinary(STORES, op)
      ensures STORES.holds(Build(g, op, os, tag).g) && forall r :: SlotIn(g, r) ==> SlotIn(Build(g, op, os, tag).g, r)
      ensures op.Alloca? ==> SlotIn(Build(g, op, os, tag).g, g.regs + 1)
    {
      StoresStep(g, Instr(op, g.regs + 1, os, tag), Build(g, op, os, tag).g);
    }
  }

  lemma StoresKeptLaw()
    ensures Kept(STORES)
  {
    StoresBuildKept();
    forall g, v, p | STORES.holds(g) && SlotIn(g, p)
      ensures STORES.holds(EmitStore(g, v, p)) && forall r :: SlotIn(g, r) ==> SlotIn(EmitStore(g, v, p), r)
    {
      StoresStep(g, Instr(Opcode.Store, NO_REG, [Reg(v), Reg(p)], ""), EmitStore(g, v, p));
    }
    forall g, v, p, r | STORES.holds(g) && SlotIn(g, r) ensures SlotIn(EmitStore(g, v, p), r) {
      AppendAdds(g, Instr(Opcode.Store, NO_REG, [Reg(v), Reg(p)], ""));
      SlotKept(g, EmitStore(g, v, p), [Instr(Opcode.Store, NO_REG, [Reg(v), Reg(p)], "")], r);
    }
    forall g, i | STORES.holds(g) && Jumps(STORES, i)
      ensures STORES.holds(Append(g, i)) && forall r :: SlotIn(g, r) ==> SlotIn(Append(g, i), r)
    {
      StoresStep(g, i, Append(g, i));
    }
    StoresFrameKept();
  }

  lemma StoresFrameKept()
    ensures FrameKeeps(STORES)
  {
    forall g, name | STORES.holds(g)
      ensures STORES.holds(StartBlock(g, name)) && forall r :: SlotIn(g, r) ==> SlotIn(StartBlock(g, name), r)
    {
      StoresStart(g, name);
    }
    forall g, n | STORES.holds(g)
      ensures STORES.holds(TakeLabels(g, n)) && forall r :: SlotIn(g, r) ==> SlotIn(TakeLabels(g, n), r)
    {
      assert TakeLabels(g, n).Blocks() == g.Blocks();
    }
    forall g, x, s | STORES.holds(g)
      ensures STORES.holds(Bind(g, x, s)) && forall r :: SlotIn(g, r) ==> SlotIn(Bind(g, x, s), r)
    {
      assert Bind(g, x, s).Blocks() == g.Blocks();
    }
  }

  // Every store of every function writes to a stack slot, and the only assignment of the
  // register it writes through is the alloca of that slot.
  lemma StoresAddressSlots(f: FunctionDecl, b: nat, i: nat, x: Instr)
    requires Stands(GenFunction(f), b, i, x) && x.op.Store?
    ensures |x.operands| == 2 && x.operands[1].Reg? && IsSlot(GenFunction(f), x.operands[1].reg)
    ensures forall c: nat, j: nat, y :: Stands(GenFunction(f), c, j, y) && y.dest == x.operands[1].reg != NO_REG ==>
      y.op.Alloca?
  {
    StoresKeptLaw();
    assert StoresToSlots(EMPTY.Blocks());
    FunctionFine(STORES, f);
    var g := GenBody(f);
    if !IsTerminated(g.code) {
      StoresStep(g, Instr(Opcode.Ret, NO_REG, [], ""), EmitRet(g, NO_REG));
    }
    assert StoresToSlot(GenFunction(f), x);
    var p := x.operands[1].reg;
    var c0: nat, j0: nat, slot :| Stands(GenFunction(f), c0, j0, slot) && slot.op.Alloca? && slot.dest == p;
    forall c: nat, j: nat, y | Stands(GenFunction(f), c, j, y) && y.dest == p != NO_REG ensures y.op.Alloca? {
      assert Assigns(GenFunction(f), c, j, p) && Assigns(GenFunction(f), c0, j0, p);
      SingleAssignment(f, c, j, c0, j0, p);
    }
  }

  // Blocks behind a return.

  ghost predicate AfterReturn(name: string) {
    exists n: nat :: name == MakeLabel(AfterRet, n)
  }

  lemma OthersDiffer(k: LabelKind, n: nat)
    requires k != AfterRet
    ensures !AfterReturn(MakeLabel(k, n))
  {
    forall m: nat ensures MakeLabel(k, n) != MakeLabel(AfterRet, m) {
      assert MakeLabel(AfterRet, m)[0] == Prefix(AfterRet)[0] == 'a';
      assert MakeLabel(k, n)[0] == Prefix(k)[0] != 'a';
    }
  }

  ghost predicate JumpsElsewhere(g: Gen) {
    forall b: nat, i: nat, x :: Stands(g.Blocks(), b, i, x) ==> forall t :: t in Targets(x) ==> !AfterReturn(t)
  }

  ghost const RETURNS := Law(JumpsElsewhere, (g, r) => true, (t: string) => !AfterReturn(t), true)

  lemma ElsewhereStep(g: Gen, i: Instr, h: Gen)
    requires JumpsElsewhere(g) && h.Blocks() == Append(g, i).Blocks() && forall t :: t in Targets(i) ==> !AfterReturn(t)
    ensures JumpsElsewhere(h)
  {
    AppendAdds(g, i);
  }

  lemma ReturnsKept()
    ensures Kept(RETURNS)
  {
    forall k: LabelKind, n: nat | k != AfterRet ensures RETURNS.jump(MakeLabel(k, n)) {
      OthersDiffer(k, n);
    }
    forall g, op, os, tag | JumpsElsewhere(g) && Ordinary(RETURNS, op) ensures JumpsElsewhere(Build(g, op, os, tag).g) {
      ElsewhereStep(g, Instr(op, g.regs + 1, os, tag), Build(g, op, os, tag).g);
    }
    forall g, v, p | JumpsElsewhere(g) ensures JumpsElsewhere(EmitStore(g, v, p)) {
      ElsewhereStep(g, Instr(Opcode.Store, NO_REG, [Reg(v), Reg(p)], ""), EmitStore(g, v, p));
    }
    forall g, i | JumpsElsewhere(g) && Jumps(RETURNS, i) ensures JumpsElsewhere(Append(g, i)) {
      ElsewhereStep(g, i, Append(g, i));
    }
    forall g, name | JumpsElsewhere(g) ensures JumpsElsewhere(StartBlock(g, name)) {
      StartAdds(g, name);
    }
    forall g, n | JumpsElsewhere(g) ensures JumpsElsewhere(TakeLabels(g, n)) {
      assert TakeLabels(g, n).Blocks() == g.Blocks();
    }
    forall g, x, s | JumpsElsewhere(g) ensures JumpsElsewhere(Bind(g, x, s)) {
      assert Bind(g, x, s).Blocks() == g.Blocks();
    }
  }

  // No branch goes to the block behind a return: what is written there never runs.
  lemma NothingReturnsInto(f: FunctionDecl, b: nat, i: nat, x: Instr, n: nat)
    requires Stands(GenFunction(f), b, i, x)
    ensures MakeLabel(AfterRet, n) !in Targets(x)
  {
    ReturnsKept();
    assert JumpsElsewhere(EMPTY);
    FunctionFine(RETURNS, f);
    var g := GenBody(f);
    if !IsTerminated(g.code) {
      ElsewhereStep(g, Instr(Opcode.Ret, NO_REG, [], ""), EmitRet(g, NO_REG));
    }
    assert AfterReturn(MakeLabel(AfterRet, n));
  }

  // Parameters.

  lemma CountAppend(code: seq<Instr>, i: Instr)
    ensures CountParams(code + [i]) == CountParams(code) + if i.op.Param? then 1 else 0
  {
    AppendSplits(code, i);
  }

  lemma ParamCode(x: string, i: nat, g: Gen)
    ensures GenParam(x, i, g).done == g.done && CountParams(GenParam(x, i, g).code) == CountParams(g.code) + 1
  {
    var a := Instr(Alloca, g.regs + 1, [], x);
    var b := Instr(Param, g.regs + 2, [IntImm(i)], "");
    var c := Instr(Opcode.Store, NO_REG, [Reg(g.regs + 2), Reg(g.regs + 1)], "");
    CountAppend(g.code, a);
    CountAppend(g.code + [a], b);
    CountAppend(g.code + [a] + [b], c);
  }

  lemma {:induction false} ParamsCode(params: seq<string>, i: nat, g: Gen)
    requires g.done == []
    ensures var h := GenParams(params, i, g);
            h.done == [] && CountParams(h.code) == CountParams(g.code) + |params|
    decreases params
  {
    if params != [] {
      ParamCode(params[0], i, g);
      ParamsCode(params[1..], i + 1, GenParam(params[0], i, g));
    }
  }

  ghost predicate EntryReads(g: Gen, n: nat) {
    CountParams(g.Blocks()[0].instrs) == n
  }

  ghost function ParamLaw(n: nat): Law {
    Law((g: Gen) => EntryReads(g, n), (g, r) => true, t => true, false)
  }

  lemma EntryKept(g: Gen, i: Instr, h: Gen, n: nat)
    requires EntryReads(g, n) && h.Blocks() == Append(g, i).Blocks() && !i.op.Param?
    ensures EntryReads(h, n)
  {
    if g.done == [] {
      AppendSplits(g.code, i);
    }
  }

  lemma ParamsKept(n: nat)
    ensures Kept(ParamLaw(n))
  {
    var l := ParamLaw(n);
    forall g, op, os, tag | EntryReads(g, n) && Ordinary(l, op) ensures EntryReads(Build(g, op, os, tag).g, n) {
      EntryKept(g, Instr(op, g.regs + 1, os, tag), Build(g, op, os, tag).g, n);
    }
    forall g, v, p | EntryReads(g, n) ensures EntryReads(EmitStore(g, v, p), n) {
      EntryKept(g, Instr(Opcode.Store, NO_REG, [Reg(v), Reg(p)], ""), EmitStore(g, v, p), n);
    }
    forall g, i | EntryReads(g, n) && Jumps(l, i) ensures EntryReads(Append(g, i), n) {
      EntryKept(g, i, Append(g, i), n);
    }
    forall g, name | EntryReads(g, n) ensures EntryReads(StartBlock(g, name), n) {
      assert StartBlock(g, name).Blocks()[0] == g.Blocks()[0];
    }
  }

  // The entry block reads one incoming value for each parameter, so the target function
  // takes as many arguments as the source function has parameters.
  lemma ArityPreserved(f: FunctionDecl)
    ensures CountParams(GenFunction(f)[0].instrs) == |f.params|
  {
    var n := |f.params|;
    ParamsKept(n);
    ParamsCode(f.params, 0, EMPTY);
    BodyFine(ParamLaw(n), f);
    var g := GenBody(f);
    if !IsTerminated(g.code) {
      EntryKept(g, Instr(Opcode.Ret, NO_REG, [], ""), EmitRet(g, NO_REG), n);
    }
  }
}
