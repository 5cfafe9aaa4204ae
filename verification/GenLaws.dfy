// A property of the function under construction that every step of the generator keeps
// holds of every generated function. The statements that use this say what the steps keep;
// the induction over the syntax is done here once.
module GenLaws {
  import opened Common
  import opened Ast
  import opened Ir
  import opened Labels
  import opened Codegen
  import opened Cfg

  // A property, the registers that count as stack slots, the labels that may be branched
  // to, and whether the code may read incoming values.
  datatype Law = Law(ghost holds: Gen -> bool, ghost slot: (Gen, RegID) -> bool, ghost jump: string -> bool,
                     params: bool)

  // What Build is used for.
  predicate Ordinary(l: Law, op: Opcode) {
    !op.Store? && !op.Ret? && !op.Branch? && !op.CondBranch? && (op.Param? ==> l.params)
  }

  ghost predicate BuildKeeps(l: Law) {
    && (forall g, op, os, tag {:trigger Build(g, op, os, tag)} ::
          l.holds(g) && Ordinary(l, op) ==> l.holds(Build(g, op, os, tag).g))
    && (forall g, op, os, tag, r {:trigger Build(g, op, os, tag), l.slot(g, r)} ::
          l.holds(g) && l.slot(g, r) && Ordinary(l, op) ==> l.slot(Build(g, op, os, tag).g, r))
    && (forall g, os, tag {:trigger Build(g, Alloca, os, tag)} ::
          l.holds(g) ==> l.slot(Build(g, Alloca, os, tag).g, g.regs + 1))
  }

  ghost predicate StoreKeeps(l: Law) {
    && (forall g, v, p {:trigger EmitStore(g, v, p)} :: l.holds(g) && l.slot(g, p) ==> l.holds(EmitStore(g, v, p)))
    && (forall g, v, p, r {:trigger EmitStore(g, v, p), l.slot(g, r)} ::
          l.holds(g) && l.slot(g, r) ==> l.slot(EmitStore(g, v, p), r))
  }

  // The jumps a block can end with.
  ghost predicate Jumps(l: Law, i: Instr) {
    IsTerminator(i) && i.dest == NO_REG && forall t :: t in Targets(i) ==> l.jump(t)
  }

  ghost predicate JumpKeeps(l: Law) {
    && (forall k: LabelKind, n: nat :: k != AfterRet ==> l.jump(MakeLabel(k, n)))
    && (forall g, i {:trigger Append(g, i)} :: l.holds(g) && Jumps(l, i) ==> l.holds(Append(g, i)))
    && (forall g, i, r {:trigger Append(g, i), l.slot(g, r)} ::
          l.holds(g) && l.slot(g, r) && Jumps(l, i) ==> l.slot(Append(g, i), r))
  }

  ghost predicate FrameKeeps(l: Law) {
    && (forall g, name {:trigger StartBlock(g, name)} :: l.holds(g) ==> l.holds(StartBlock(g, name)))
    && (forall g, name, r {:trigger StartBlock(g, name), l.slot(g, r)} ::
          l.holds(g) && l.slot(g, r) ==> l.slot(StartBlock(g, name), r))
    && (forall g, n {:trigger TakeLabels(g, n)} :: l.holds(g) ==> l.holds(TakeLabels(g, n)))
    && (forall g, n, r {:trigger TakeLabels(g, n), l.slot(g, r)} ::
          l.holds(g) && l.slot(g, r) ==> l.slot(TakeLabels(g, n), r))
    && (forall g, x, s {:trigger Bind(g, x, s)} :: l.holds(g) ==> l.holds(Bind(g, x, s)))
    && (forall g, x, s, r {:trigger Bind(g, x, s), l.slot(g, r)} ::
          l.holds(g) && l.slot(g, r) ==> l.slot(Bind(g, x, s), r))
  }

  ghost predicate Kept(l: Law) {
    BuildKeeps(l) && StoreKeeps(l) && JumpKeeps(l) && FrameKeeps(l)
  }

  // The law holds, and the map of the generator leads to slots.
  ghost predicate Fine(l: Law, g: Gen) {
    l.holds(g) && forall x :: x in g.slots ==> l.slot(g, g.slots[x])
  }

  ghost predicate Leads(l: Law, g: Gen, h: Gen) {
    Fine(l, h) && forall r :: l.slot(g, r) ==> l.slot(h, r)
  }

  lemma LeadsTrans(l: Law, g: Gen, h: Gen, k: Gen)
    requires Leads(l, g, h) && Leads(l, h, k)
    ensures Leads(l, g, k)
  {
  }

  lemma BuildLeads(l: Law, g: Gen, op: Opcode, os: seq<Operand>, tag: string)
    requires Kept(l) && Fine(l, g) && Ordinary(l, op)
    ensures Leads(l, g, Build(g, op, os, tag).g)
    ensures op.Alloca? ==> l.slot(Build(g, op, os, tag).g, Build(g, op, os, tag).reg)
  {
  }

  lemma StoreLeads(l: Law, g: Gen, v: RegID, p: RegID)
    requires Kept(l) && Fine(l, g) && l.slot(g, p)
    ensures Leads(l, g, EmitStore(g, v, p))
  {
  }

  lemma BindLeads(l: Law, g: Gen, x: string, r: RegID)
    requires Kept(l) && Fine(l, g) && l.slot(g, r)
    ensures Leads(l, g, Bind(g, x, r))
  {
  }

  lemma TakeLeads(l: Law, g: Gen, n: nat)
    requires Kept(l) && Fine(l, g)
    ensures Leads(l, g, TakeLabels(g, n))
  {
  }

  lemma StartLeads(l: Law, g: Gen, name: string)
    requires Kept(l) && Fine(l, g)
    ensures Leads(l, g, StartBlock(g, name))
  {
  }

  lemma JumpLeads(l: Law, g: Gen, i: Instr, name: string)
    requires Kept(l) && Fine(l, g) && Jumps(l, i)
    ensures Leads(l, g, Append(g, i)) && Leads(l, g, StartBlock(Append(g, i), name))
  {
    assert Fine(l, Append(g, i));
    StartLeads(l, Append(g, i), name);
  }

  lemma BranchLeads(l: Law, g: Gen, target: string, name: string)
    requires Kept(l) && Fine(l, g) && l.jump(target)
    ensures Leads(l, g, StartBlock(EmitBranch(g, target), name))
    ensures Leads(l, g, BranchIfOpen(g, target)) && Leads(l, g, Close(g, target, name))
  {
    var i := Instr(Branch, NO_REG, [], target);
    JumpLeads(l, g, i, name);
    StartLeads(l, g, name);
  }

  lemma JumpTo(l: Law, k: LabelKind, n: nat, name: string)
    requires Kept(l) && k != AfterRet && name == MakeLabel(k, n)
    ensures l.jump(name) && ',' !in name
  {
    LabelHasNoComma(k, n);
  }

  lemma TestLeads(l: Law, g: Gen, r: RegID, t: string, f: string)
    requires Kept(l) && Fine(l, g) && l.jump(t) && l.jump(f) && ',' !in t
    ensures Leads(l, g, StartBlock(EmitCondBranch(g, r, t, f), t))
  {
    SplitJoin(t, f);
    JumpLeads(l, g, Instr(CondBranch, NO_REG, [Reg(r)], JoinTargets(t, f)), t);
  }

  // Expressions.

  lemma {:induction false} ExprLeads(l: Law, e: Expr, g: Gen)
    requires Kept(l) && Fine(l, g)
    ensures Leads(l, g, GenExpr(e, g).g)
    decreases e, 2
  {
    match e
    case IntLit(v) => BuildLeads(l, g, Copy, [IntImm(v)], "");
    case FloatLit(t) => BuildLeads(l, g, Copy, [FloatImm(t)], "");
    case StringLit(t) => BuildLeads(l, g, Copy, [StringRef(t)], "");
    case CharLit(c) => BuildLeads(l, g, Copy, [IntImm(c)], "");
    case BoolLit(b) => BuildLeads(l, g, Copy, [BoolImm(b)], "");
    case NilLit => BuildLeads(l, g, Copy, [IntImm(0)], "nil");
    case Ident(x) => IdentLeads(l, x, g);
    case Binary(op, a, b) => TwoLeads(l, e, a, b, BinaryOpcode(op), g);
    case Unary(_, _) => UnaryLeads(l, e, g);
    case AssignExpr(_, _, _) => AssignLeads(l, e, g);
    case Call(_, _) => CallLeads(l, e, g);
    case Index(base, index) => TwoLeads(l, e, base, index, Opcode.Add, g);
    case Member(_, _) => MemberLeads(l, e, g);
    case Cast(_, _) => CastLeads(l, e, g);
    case ArrayLit(es) => ElementsLead(l, es, 0, NO_REG, g);
  }

  lemma {:induction false} UnaryLeads(l: Law, e: Expr, g: Gen)
    requires e.Unary? && Kept(l) && Fine(l, g)
    ensures Leads(l, g, GenExpr(e, g).g)
    decreases e, 1
  {
    var a := GenExpr(e.operand, g);
    ExprLeads(l, e.operand, g);
    OneLeads(l, g, a, if e.uop.Deref? then Load else UnaryOpcode(e.uop), [Reg(a.reg)], "");
  }

  lemma {:induction false} MemberLeads(l: Law, e: Expr, g: Gen)
    requires e.Member? && Kept(l) && Fine(l, g)
    ensures Leads(l, g, GenExpr(e, g).g)
    decreases e, 1
  {
    ExprLeads(l, e.object_, g);
    OneLeads(l, g, GenExpr(e.object_, g), Load, [], e.field);
  }

  lemma {:induction false} CastLeads(l: Law, e: Expr, g: Gen)
    requires e.Cast? && Kept(l) && Fine(l, g)
    ensures Leads(l, g, GenExpr(e, g).g)
    decreases e, 1
  {
    ExprLeads(l, e.inner, g);
    OneLeads(l, g, GenExpr(e.inner, g), Opcode.Cast, [Reg(GenExpr(e.inner, g).reg)], "?");
  }

  lemma IdentLeads(l: Law, x: string, g: Gen)
    requires Kept(l) && Fine(l, g)
    ensures Leads(l, g, GenIdent(x, g).g)
  {
    if IsBareCall(x) {
      BuildLeads(l, g, Opcode.Call, [], x);
    } else if x in g.slots {
      BuildLeads(l, g, Load, [Reg(g.slots[x])], "");
    } else {
      BuildLeads(l, g, Load, [], x);
    }
  }

  // One more instruction after an operand.
  lemma OneLeads(l: Law, g: Gen, a: ExprGen, op: Opcode, os: seq<Operand>, tag: string)
    requires Kept(l) && Leads(l, g, a.g) && Ordinary(l, op)
    ensures Leads(l, g, Build(a.g, op, os, tag).g)
  {
    BuildLeads(l, a.g, op, os, tag);
    LeadsTrans(l, g, a.g, Build(a.g, op, os, tag).g);
  }

  lemma {:induction false} TwoLeads(l: Law, whole: Expr, x: Expr, y: Expr, op: Opcode, g: Gen)
    requires (whole decreases to x) && (whole decreases to y) && Kept(l) && Fine(l, g) && Ordinary(l, op)
    ensures var a := GenExpr(x, g);
            var b := GenExpr(y, a.g);
            Leads(l, g, Build(b.g, op, [Reg(a.reg), Reg(b.reg)], "").g)
    decreases whole, 0
  {
    var a := GenExpr(x, g);
    var b := GenExpr(y, a.g);
    ExprLeads(l, x, g);
    ExprLeads(l, y, a.g);
    LeadsTrans(l, g, a.g, b.g);
    OneLeads(l, g, b, op, [Reg(a.reg), Reg(b.reg)], "");
  }

  lemma StoreToLeads(l: Law, g: Gen, a: ExprGen, target: Expr)
    requires Kept(l) && Leads(l, g, a.g)
    ensures Leads(l, g, StoreTo(a.g, target, a.reg))
  {
    if target.Ident? && target.name in a.g.slots {
      StoreLeads(l, a.g, a.reg, a.g.slots[target.name]);
      LeadsTrans(l, g, a.g, StoreTo(a.g, target, a.reg));
    }
  }

  lemma {:induction false} AssignLeads(l: Law, e: Expr, g: Gen)
    requires e.AssignExpr? && Kept(l) && Fine(l, g)
    ensures Leads(l, g, GenExpr(e, g).g)
    decreases e, 1
  {
    var AssignExpr(op, target, value) := e;
    if op.Assign? {
      ExprLeads(l, value, g);
      StoreToLeads(l, g, GenExpr(value, g), target);
    } else {
      TwoLeads(l, e, target, value, AssignOpcode(op), g);
      var a := GenExpr(target, g);
      var b := GenExpr(value, a.g);
      StoreToLeads(l, g, Build(b.g, AssignOpcode(op), [Reg(a.reg), Reg(b.reg)], ""), target);
    }
  }

  lemma {:induction false} CallLeads(l: Law, e: Expr, g: Gen)
    requires e.Call? && Kept(l) && Fine(l, g)
    ensures Leads(l, g, GenExpr(e, g).g)
    decreases e, 1
  {
    var f := if e.callee.Ident? then g else GenExpr(e.callee, g).g;
    if !e.callee.Ident? {
      ExprLeads(l, e.callee, g);
    }
    var a := GenArgs(e.args, f);
    ArgsLead(l, e.args, f);
    LeadsTrans(l, g, f, a.g);
    var name := if e.callee.Ident? then e.callee.name else "%" + Decimal(GenExpr(e.callee, g).reg);
    OneLeads(l, g, ExprGen(a.g, NO_REG), Opcode.Call, RegOperands(a.regs), name);
  }

  lemma {:induction false} ArgsLead(l: Law, args: seq<Expr>, g: Gen)
    requires Kept(l) && Fine(l, g)
    ensures Leads(l, g, GenArgs(args, g).g)
    decreases args, 0
  {
    if args != [] {
      var a := GenExpr(args[0], g);
      ExprLeads(l, args[0], g);
      ArgsLead(l, args[1..], a.g);
      LeadsTrans(l, g, a.g, GenArgs(args[1..], a.g).g);
    }
  }

  lemma {:induction false} ElementsLead(l: Law, es: seq<Expr>, i: nat, first: RegID, g: Gen)
    requires Kept(l) && Fine(l, g)
    ensures Leads(l, g, GenElements(es, i, first, g).g)
    decreases es, 0
  {
    if es != [] {
      var a := GenExpr(es[0], g);
      ExprLeads(l, es[0], g);
      var slot := Build(a.g, Alloca, [], "__arr_" + Decimal(i));
      BuildLeads(l, a.g, Alloca, [], "__arr_" + Decimal(i));
      var g1 := EmitStore(slot.g, a.reg, slot.reg);
      StoreLeads(l, slot.g, a.reg, slot.reg);
      LeadsTrans(l, g, a.g, slot.g);
      LeadsTrans(l, g, slot.g, g1);
      ElementsLead(l, es[1..], i + 1, if i == 0 then slot.reg else first, g1);
      LeadsTrans(l, g, g1, GenElements(es, i, first, g).g);
    }
  }

  // Statements.

  lemma {:induction false} StmtLeads(l: Law, s: Stmt, g: Gen)
    requires Kept(l) && Fine(l, g)
    ensures Leads(l, g, GenStmt(s, g))
    decreases s, 2
  {
    match s
    case Block(ss) => StmtsLead(l, ss, g);
    case ExprStmt(e) => ExprLeads(l, e, g);
    case VarDecl(_, x, init) => DeclLeads(l, x, init, g);
    case Return(result) => ReturnLeads(l, result, g);
    case If(_, _, _) => IfLeads(l, s, g);
    case While(c, body) => LoopLeads(l, c, body, WHILE_LABELS, g);
    case Vloop(c, body) =>
      if c.IntLit? {
        CountedLeads(l, s, g);
      } else {
        LoopLeads(l, c, body, VLOOP_LABELS, g);
      }
    case For(_, _, _) => ForLeads(l, s, g);
    case Break =>
    case Continue =>
    case Match(_, _) => MatchLeads(l, s, g);
  }

  lemma {:induction false} MatchLeads(l: Law, s: Stmt, g: Gen)
    requires s.Match? && Kept(l) && Fine(l, g)
    ensures Leads(l, g, GenStmt(s, g))
    decreases s, 1
  {
    var x := GenExpr(s.subject, g);
    var exit := MakeLabel(MatchExit, x.g.labels);
    var at := TakeLabels(x.g, 1);
    JumpTo(l, MatchExit, x.g.labels, exit);
    ExprLeads(l, s.subject, g);
    TakeLeads(l, x.g, 1);
    LeadsTrans(l, g, x.g, at);
    ArmsLead(l, s.arms, x.reg, exit, at);
    var end := GenArms(s.arms, x.reg, exit, at);
    LeadsTrans(l, g, at, end);
    BranchLeads(l, end, exit, exit);
    LeadsTrans(l, g, end, Close(end, exit, exit));
  }

  lemma DeclLeads(l: Law, x: string, init: Option<Expr>, g: Gen)
    requires Kept(l) && Fine(l, g)
    ensures Leads(l, g, GenVarDecl(x, init, g))
  {
    var slot := Build(g, Alloca, [], x);
    var g1 := Bind(slot.g, x, slot.reg);
    BuildLeads(l, g, Alloca, [], x);
    BindLeads(l, slot.g, x, slot.reg);
    LeadsTrans(l, g, slot.g, g1);
    if init.Some? {
      var a := GenExpr(init.value, g1);
      ExprLeads(l, init.value, g1);
      StoreLeads(l, a.g, a.reg, slot.reg);
      LeadsTrans(l, g1, a.g, GenVarDecl(x, init, g));
      LeadsTrans(l, g, g1, GenVarDecl(x, init, g));
    }
  }

  lemma ReturnLeads(l: Law, result: Option<Expr>, g: Gen)
    requires Kept(l) && Fine(l, g)
    ensures Leads(l, g, GenReturn(result, g))
  {
    var a := if result.Some? then GenExpr(result.value, g) else ExprGen(g, NO_REG);
    if result.Some? {
      ExprLeads(l, result.value, g);
    }
    var i := Instr(Ret, NO_REG, if a.reg == NO_REG then [] else [Reg(a.reg)], "");
    var g1 := Append(a.g, i);
    assert Targets(i) == {};
    JumpLeads(l, a.g, i, "");
    TakeLeads(l, g1, 1);
    StartLeads(l, TakeLabels(g1, 1), MakeLabel(AfterRet, g1.labels));
    LeadsTrans(l, g, a.g, g1);
    LeadsTrans(l, g, g1, TakeLabels(g1, 1));
    LeadsTrans(l, g, TakeLabels(g1, 1), GenReturn(result, g));
  }

  lemma ThenLeads(l: Law, c: Expr, hasElse: bool, g: Gen)
    requires Kept(l) && Fine(l, g)
    ensures Leads(l, g, ThenHead(c, hasElse, g))
  {
    var x := GenExpr(c, g);
    var at := TakeLabels(x.g, if hasElse then 3 else 2);
    ExprLeads(l, c, g);
    TakeLeads(l, x.g, if hasElse then 3 else 2);
    LeadsTrans(l, g, x.g, at);
    LabelHasNoComma(Then, x.g.labels);
    TestLeads(l, at, x.reg, MakeLabel(Then, x.g.labels), MakeLabel(if hasElse then Else else Merge, x.g.labels + 1));
    LeadsTrans(l, g, at, ThenHead(c, hasElse, g));
  }

  // A branch, and the block after it.
  lemma {:induction false} BodyLeads(l: Law, g: Gen, t: Stmt, at: Gen, target: string, name: string)
    requires Kept(l) && Leads(l, g, at) && l.jump(target)
    ensures Leads(l, g, Close(GenStmt(t, at), target, name))
    decreases t, 3
  {
    StmtLeads(l, t, at);
    BranchLeads(l, GenStmt(t, at), target, name);
    LeadsTrans(l, g, at, GenStmt(t, at));
    LeadsTrans(l, g, GenStmt(t, at), Close(GenStmt(t, at), target, name));
  }

  lemma {:induction false} IfLeads(l: Law, s: Stmt, g: Gen)
    requires s.If? && Kept(l) && Fine(l, g)
    ensures Leads(l, g, GenStmt(s, g))
    decreases s, 1
  {
    var n := IfLabels(s.cond, g);
    ThenLeads(l, s.cond, s.elseBranch.Some?, g);
    match s.elseBranch
    case None => BodyLeads(l, g, s.thenBranch, ThenHead(s.cond, false, g), MakeLabel(Merge, n + 1),
                           MakeLabel(Merge, n + 1));
    case Some(f) =>
      var other, merge := MakeLabel(Else, n + 1), MakeLabel(Merge, n + 2);
      BodyLeads(l, g, s.thenBranch, ThenHead(s.cond, true, g), merge, other);
      BodyLeads(l, g, f, Close(GenStmt(s.thenBranch, ThenHead(s.cond, true, g)), merge, other), merge, merge);
  }

  lemma {:induction false} LoopLeads(l: Law, c: Expr, body: Stmt, ls: LoopLabels, g: Gen)
    requires Kept(l) && Fine(l, g) && ls.cond != AfterRet && ls.body != AfterRet && ls.exit != AfterRet
    ensures Leads(l, g, GenLoop(c, body, ls, g))
    decreases body, 4
  {
    var n := g.labels;
    var cond, bodyName, exit := MakeLabel(ls.cond, n), MakeLabel(ls.body, n + 1), MakeLabel(ls.exit, n + 2);
    LabelHasNoComma(ls.body, n + 1);
    LoopHeadLeads(l, c, cond, bodyName, exit, g);
    BodyLeads(l, g, body, LoopHead(c, cond, bodyName, exit, g), cond, exit);
  }

  lemma LoopHeadLeads(l: Law, c: Expr, cond: string, bodyName: string, exit: string, g: Gen)
    requires Kept(l) && Fine(l, g) && l.jump(cond) && l.jump(bodyName) && l.jump(exit) && ',' !in bodyName
    ensures Leads(l, g, LoopHead(c, cond, bodyName, exit, g))
  {
    var atCond := StartBlock(EmitBranch(TakeLabels(g, 3), cond), cond);
    TakeLeads(l, g, 3);
    BranchLeads(l, TakeLabels(g, 3), cond, cond);
    LeadsTrans(l, g, TakeLabels(g, 3), atCond);
    var x := GenExpr(c, atCond);
    ExprLeads(l, c, atCond);
    LeadsTrans(l, g, atCond, x.g);
    TestLeads(l, x.g, x.reg, bodyName, exit);
    LeadsTrans(l, g, x.g, LoopHead(c, cond, bodyName, exit, g));
  }

  lemma CounterInitLeads(l: Law, g: Gen)
    requires Kept(l) && Fine(l, g)
    ensures Leads(l, g, CounterInit(g).g) && l.slot(CounterInit(g).g, CounterInit(g).reg)
  {
    var at := TakeLabels(g, 4);
    var slot := Build(at, Alloca, [], MakeLabel(VloopCounter, g.labels));
    var zero := Build(slot.g, Copy, [IntImm(0)], "");
    TakeLeads(l, g, 4);
    BuildLeads(l, at, Alloca, [], MakeLabel(VloopCounter, g.labels));
    LeadsTrans(l, g, at, slot.g);
    BuildLeads(l, slot.g, Copy, [IntImm(0)], "");
    LeadsTrans(l, g, slot.g, zero.g);
    StoreLeads(l, zero.g, zero.reg, slot.reg);
    LeadsTrans(l, g, zero.g, CounterInit(g).g);
  }

  lemma CounterHeadLeads(l: Law, limit: int, slot: RegID, cond: string, bodyName: string, exit: string, g: Gen)
    requires Kept(l) && Fine(l, g) && l.jump(cond) && l.jump(bodyName) && l.jump(exit) && ',' !in bodyName
    ensures Leads(l, g, CounterHead(limit, slot, cond, bodyName, exit, g))
  {
    var atCond := StartBlock(EmitBranch(g, cond), cond);
    var cur := Build(atCond, Load, [Reg(slot)], "");
    var lim := Build(cur.g, Copy, [IntImm(limit)], "");
    var cmp := Build(lim.g, CmpLt, [Reg(cur.reg), Reg(lim.reg)], "");
    BranchLeads(l, g, cond, cond);
    BuildLeads(l, atCond, Load, [Reg(slot)], "");
    LeadsTrans(l, g, atCond, cur.g);
    BuildLeads(l, cur.g, Copy, [IntImm(limit)], "");
    LeadsTrans(l, g, cur.g, lim.g);
    BuildLeads(l, lim.g, CmpLt, [Reg(cur.reg), Reg(lim.reg)], "");
    LeadsTrans(l, g, lim.g, cmp.g);
    TestLeads(l, cmp.g, cmp.reg, bodyName, exit);
    LeadsTrans(l, g, cmp.g, CounterHead(limit, slot, cond, bodyName, exit, g));
  }

  lemma CounterStepLeads(l: Law, slot: RegID, cond: string, exit: string, g: Gen)
    requires Kept(l) && Fine(l, g) && l.slot(g, slot) && l.jump(cond)
    ensures Leads(l, g, CounterStep(slot, cond, exit, g))
  {
    if IsTerminated(g.code) {
      StartLeads(l, g, exit);
    } else {
      var cur := Build(g, Load, [Reg(slot)], "");
      var one := Build(cur.g, Copy, [IntImm(1)], "");
      var inc := Build(one.g, Opcode.Add, [Reg(cur.reg), Reg(one.reg)], "");
      var kept := EmitStore(inc.g, inc.reg, slot);
      BuildLeads(l, g, Load, [Reg(slot)], "");
      BuildLeads(l, cur.g, Copy, [IntImm(1)], "");
      LeadsTrans(l, g, cur.g, one.g);
      BuildLeads(l, one.g, Opcode.Add, [Reg(cur.reg), Reg(one.reg)], "");
      LeadsTrans(l, g, one.g, inc.g);
      StoreLeads(l, inc.g, inc.reg, slot);
      LeadsTrans(l, g, inc.g, kept);
      BranchLeads(l, kept, cond, exit);
      LeadsTrans(l, g, kept, CounterStep(slot, cond, exit, g));
    }
  }

  lemma {:induction false} CountedLeads(l: Law, s: Stmt, g: Gen)
    requires s.Vloop? && s.cond.IntLit? && Kept(l) && Fine(l, g)
    ensures Leads(l, g, GenStmt(s, g))
    decreases s, 1
  {
    var n, init := g.labels, CounterInit(g);
    var cond, bodyName, exit := MakeLabel(VloopCond, n + 1), MakeLabel(VloopBody, n + 2), MakeLabel(VloopExit, n + 3);
    JumpTo(l, VloopCond, n + 1, cond);
    JumpTo(l, VloopBody, n + 2, bodyName);
    JumpTo(l, VloopExit, n + 3, exit);
    CounterInitLeads(l, g);
    CountedBodyLeads(l, s.cond.value, s.body, init.reg, cond, bodyName, exit, init.g);
    var atBody := CounterHead(s.cond.value, init.reg, cond, bodyName, exit, init.g);
    LeadsTrans(l, g, init.g, CounterStep(init.reg, cond, exit, GenStmt(s.body, atBody)));
  }

  lemma {:induction false} CountedBodyLeads(l: Law, limit: int, body: Stmt, slot: RegID, cond: string, bodyName: string,
                                            exit: string, g: Gen)
    requires Kept(l) && Fine(l, g) && l.slot(g, slot)
    requires l.jump(cond) && l.jump(bodyName) && l.jump(exit) && ',' !in bodyName
    ensures Leads(l, g, CounterStep(slot, cond, exit, GenStmt(body, CounterHead(limit, slot, cond, bodyName, exit, g))))
    decreases body, 3
  {
    var at := CounterHead(limit, slot, cond, bodyName, exit, g);
    CounterHeadLeads(l, limit, slot, cond, bodyName, exit, g);
    StmtLeads(l, body, at);
    LeadsTrans(l, g, at, GenStmt(body, at));
    CounterStepLeads(l, slot, cond, exit, GenStmt(body, at));
    LeadsTrans(l, g, GenStmt(body, at), CounterStep(slot, cond, exit, GenStmt(body, at)));
  }

  lemma ForInitLeads(l: Law, x: string, iterable: Expr, g: Gen)
    requires Kept(l) && Fine(l, g)
    ensures Leads(l, g, ForInit(x, iterable, g).g)
  {
    var slot := Build(g, Alloca, [], x);
    var bound := Bind(slot.g, x, slot.reg);
    BuildLeads(l, g, Alloca, [], x);
    BindLeads(l, slot.g, x, slot.reg);
    LeadsTrans(l, g, slot.g, bound);
    var it := GenExpr(iterable, bound);
    ExprLeads(l, iterable, bound);
    LeadsTrans(l, g, bound, it.g);
    var iter := Build(it.g, Alloca, [], "__iter");
    BuildLeads(l, it.g, Alloca, [], "__iter");
    LeadsTrans(l, g, it.g, iter.g);
    StoreLeads(l, iter.g, it.reg, iter.reg);
    LeadsTrans(l, g, iter.g, ForInit(x, iterable, g).g);
  }

  lemma ForTestLeads(l: Law, iter: RegID, cond: string, bodyName: string, exit: string, g: Gen)
    requires Kept(l) && Fine(l, g) && l.jump(cond) && l.jump(bodyName) && l.jump(exit) && ',' !in bodyName
    ensures Leads(l, g, ForTest(iter, cond, bodyName, exit, g))
  {
    var atCond := StartBlock(EmitBranch(TakeLabels(g, 3), cond), cond);
    var cur := Build(atCond, Load, [Reg(iter)], "");
    TakeLeads(l, g, 3);
    BranchLeads(l, TakeLabels(g, 3), cond, cond);
    LeadsTrans(l, g, TakeLabels(g, 3), atCond);
    BuildLeads(l, atCond, Load, [Reg(iter)], "");
    LeadsTrans(l, g, atCond, cur.g);
    TestLeads(l, cur.g, cur.reg, bodyName, exit);
    LeadsTrans(l, g, cur.g, ForTest(iter, cond, bodyName, exit, g));
  }

  lemma {:induction false} ForLeads(l: Law, s: Stmt, g: Gen)
    requires s.For? && Kept(l) && Fine(l, g)
    ensures Leads(l, g, GenStmt(s, g))
    decreases s, 1
  {
    var init := ForInit(s.variable, s.iterable, g);
    var n := init.g.labels;
    var cond, bodyName, exit := MakeLabel(ForCond, n), MakeLabel(ForBody, n + 1), MakeLabel(ForExit, n + 2);
    JumpTo(l, ForCond, n, cond);
    JumpTo(l, ForBody, n + 1, bodyName);
    JumpTo(l, ForExit, n + 2, exit);
    ForInitLeads(l, s.variable, s.iterable, g);
    ForTestLeads(l, init.reg, cond, bodyName, exit, init.g);
    var atBody := ForTest(init.reg, cond, bodyName, exit, init.g);
    LeadsTrans(l, g, init.g, atBody);
    BodyLeads(l, g, s.body, atBody, cond, exit);
  }

  lemma {:induction false} StmtsLead(l: Law, ss: seq<Stmt>, g: Gen)
    requires Kept(l) && Fine(l, g)
    ensures Leads(l, g, GenStmts(ss, g))
    decreases ss, 0
  {
    if ss != [] {
      StmtLeads(l, ss[0], g);
      StmtsLead(l, ss[1..], GenStmt(ss[0], g));
      LeadsTrans(l, g, GenStmt(ss[0], g), GenStmts(ss, g));
    }
  }

  lemma ArmHeadLeads(l: Law, pattern: Option<Expr>, subject: RegID, bodyName: string, nextName: string, g: Gen)
    requires Kept(l) && Fine(l, g) && l.jump(bodyName) && l.jump(nextName) && ',' !in bodyName
    ensures Leads(l, g, ArmHead(pattern, subject, bodyName, nextName, g))
  {
    match pattern
    case None => BranchLeads(l, g, bodyName, bodyName);
    case Some(p) =>
      var x := GenExpr(p, g);
      var cmp := Build(x.g, CmpEq, [Reg(subject), Reg(x.reg)], "");
      ExprLeads(l, p, g);
      OneLeads(l, g, x, CmpEq, [Reg(subject), Reg(x.reg)], "");
      TestLeads(l, cmp.g, cmp.reg, bodyName, nextName);
      LeadsTrans(l, g, cmp.g, ArmHead(pattern, subject, bodyName, nextName, g));
  }

  // The body of one arm.
  lemma {:induction false} ArmLeads(l: Law, arm: MatchArm, subject: RegID, bodyName: string, nextName: string, g: Gen,
                                    k: nat)
    requires Kept(l) && Fine(l, g) && l.jump(bodyName) && l.jump(nextName) && ',' !in bodyName
    ensures Leads(l, g, GenStmt(arm.body, ArmHead(arm.pattern, subject, bodyName, nextName, TakeLabels(g, k))))
    decreases arm, 0
  {
    var at := TakeLabels(g, k);
    var atBody := ArmHead(arm.pattern, subject, bodyName, nextName, at);
    TakeLeads(l, g, k);
    ArmHeadLeads(l, arm.pattern, subject, bodyName, nextName, at);
    LeadsTrans(l, g, at, atBody);
    StmtLeads(l, arm.body, atBody);
    LeadsTrans(l, g, atBody, GenStmt(arm.body, atBody));
  }

  lemma {:induction false} ArmsLead(l: Law, arms: seq<MatchArm>, subject: RegID, exit: string, g: Gen)
    requires Kept(l) && Fine(l, g) && l.jump(exit)
    ensures Leads(l, g, GenArms(arms, subject, exit, g))
    decreases arms, 0
  {
    if arms != [] {
      var n := g.labels;
      var k := if |arms| == 1 then 1 else 2;
      var nextName := if |arms| == 1 then exit else MakeLabel(ArmNext, n + 1);
      var h := GenStmt(arms[0].body, ArmHead(arms[0].pattern, subject, MakeLabel(ArmBody, n), nextName,
                                             TakeLabels(g, k)));
      LabelHasNoComma(ArmBody, n);
      ArmLeads(l, arms[0], subject, MakeLabel(ArmBody, n), nextName, g, k);
      BranchLeads(l, h, exit, nextName);
      if arms[0].pattern.None? {
        LeadsTrans(l, g, h, BranchIfOpen(h, exit));
      } else {
        var next := Close(h, exit, nextName);
        LeadsTrans(l, g, h, next);
        ArmsLead(l, arms[1..], subject, exit, next);
        LeadsTrans(l, g, next, GenArms(arms, subject, exit, g));
      }
    }
  }

  // Functions.

  lemma {:induction false} ParamsLead(l: Law, params: seq<string>, i: nat, g: Gen)
    requires Kept(l) && Fine(l, g) && l.params
    ensures Leads(l, g, GenParams(params, i, g))
    decreases params
  {
    if params != [] {
      var slot := Build(g, Alloca, [], params[0]);
      var incoming := Build(slot.g, Param, [IntImm(i)], "");
      var kept := EmitStore(incoming.g, incoming.reg, slot.reg);
      BuildLeads(l, g, Alloca, [], params[0]);
      BuildLeads(l, slot.g, Param, [IntImm(i)], "");
      LeadsTrans(l, g, slot.g, incoming.g);
      StoreLeads(l, incoming.g, incoming.reg, slot.reg);
      LeadsTrans(l, g, incoming.g, kept);
      BindLeads(l, kept, params[0], slot.reg);
      LeadsTrans(l, g, kept, GenParam(params[0], i, g));
      ParamsLead(l, params[1..], i + 1, GenParam(params[0], i, g));
      LeadsTrans(l, g, GenParam(params[0], i, g), GenParams(params, i, g));
    }
  }

  // From the parameters on.
  lemma BodyFine(l: Law, f: FunctionDecl)
    requires Kept(l) && Fine(l, GenParams(f.params, 0, EMPTY))
    ensures Fine(l, GenBody(f))
  {
    if f.body.Some? {
      StmtLeads(l, f.body.value, GenParams(f.params, 0, EMPTY));
    }
  }

  lemma FunctionFine(l: Law, f: FunctionDecl)
    requires Kept(l) && l.holds(EMPTY) && l.params
    ensures Fine(l, GenBody(f))
  {
    ParamsLead(l, f.params, 0, EMPTY);
    BodyFine(l, f);
  }
}
