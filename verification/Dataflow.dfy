// Where registers are assigned and where their values are known to be available, as a
// certificate built along with the code: for each block a set of registers that every
// path to it has assigned.
module Dataflow {
  import opened Common
  import opened Ast
  import opened Ir
  import opened Labels
  import opened Codegen
  import opened CodegenFrame
  import opened Cfg
  import opened CfgNames
  import opened Numbering
  import opened Traceable

  // Calls of `silent` names leave their register without a value, calls of `banned` names
  // do not occur, the incoming values are read by the first `params` registers only, and
  // casts and calls through a value occur only where `wide` says so.
  datatype Rules = Rules(silent: set<string>, banned: set<string>, params: nat, wide: bool)

  predicate Yields(i: Instr, silent: set<string>) {
    i.dest != NO_REG && !(i.op.Call? && i.tag in silent)
  }

  // The registers a piece of code gives a value to.
  function Given(code: seq<Instr>, silent: set<string>): set<RegID> {
    if code == [] then {}
    else
      var last := code[|code| - 1];
      Given(code[..|code| - 1], silent) + if Yields(last, silent) then {last.dest} else {}
  }

  function GivenIn(blocks: seq<BasicBlock>, silent: set<string>): set<RegID> {
    if blocks == [] then {}
    else GivenIn(blocks[..|blocks| - 1], silent) + Given(blocks[|blocks| - 1].instrs, silent)
  }

  // An instruction after n registers have been assigned, where `avail` holds the registers
  // that have a value on every path.
  ghost predicate Fits(i: Instr, n: nat, avail: set<RegID>, rules: Rules) {
    && (i.dest == NO_REG || i.dest == n + 1)
    && (forall o :: o in i.operands && o.Reg? ==> o.reg in avail)
    && Regular(i)
    && (i.op.Cast? ==> rules.wide)
    && (i.op.Call? ==> i.tag !in rules.banned)
    && (i.op.Param? ==> n < rules.params)
  }

  // Everything but a store and a terminator has a destination, copies and parameters carry
  // one constant, phis do not occur.
  predicate Regular(i: Instr) {
    && (i.dest == NO_REG <==> i.op.Store? || IsTerminator(i))
    && !i.op.Phi?
    && (i.op.Copy? ==> |i.operands| == 1 && !i.operands[0].Reg?)
    && (i.op.Param? ==> |i.operands| == 1 && i.operands[0].IntImm? && i.operands[0].value >= 0)
  }

  // Casts do not occur either.
  predicate Shaped(i: Instr) {
    Regular(i) && !i.op.Cast?
  }

  ghost predicate InOrder(code: seq<Instr>, n: nat, avail: set<RegID>, rules: Rules) {
    code == [] ||
    (var init := code[..|code| - 1];
     && InOrder(init, n, avail, rules)
     && Fits(code[|code| - 1], Top(init, n), avail + Given(init, rules.silent), rules))
  }

  // The registers assigned on every path to the block of a name.
  type Arrivals = map<string, set<RegID>>

  // The code of a block agrees with the certificate, and so does every branch out of it.
  ghost predicate BlockFits(b: BasicBlock, n: nat, given: set<RegID>, din: Arrivals, rules: Rules) {
    && b.name in din && din[b.name] <= given
    && InOrder(b.instrs, n, din[b.name], rules)
    && forall i :: i in b.instrs ==> EdgesFit(i, din[b.name] + Given(b.instrs, rules.silent), din)
  }

  ghost predicate EdgesFit(i: Instr, avail: set<RegID>, din: Arrivals) {
    forall t :: t in Targets(i) ==> t in din && din[t] <= avail
  }

  ghost predicate Chain(blocks: seq<BasicBlock>, din: Arrivals, rules: Rules) {
    blocks == [] ||
    (var init := blocks[..|blocks| - 1];
     && Chain(init, din, rules)
     && BlockFits(blocks[|blocks| - 1], TopIn(init), GivenIn(init, rules.silent), din, rules))
  }

  ghost predicate DinGrew(din: Arrivals, din': Arrivals) {
    forall k :: k in din ==> k in din' && din'[k] == din[k]
  }

  lemma {:induction false} ChainGrows(blocks: seq<BasicBlock>, din: Arrivals, din': Arrivals, rules: Rules)
    requires Chain(blocks, din, rules) && DinGrew(din, din')
    ensures Chain(blocks, din', rules)
  {
    if blocks != [] {
      ChainGrows(blocks[..|blocks| - 1], din, din', rules);
    }
  }

  // Registers available at the end of the code generated so far.
  ghost predicate Available(g: Gen, din: Arrivals, avail: set<RegID>, silent: set<string>) {
    g.here in din && avail <= din[g.here] + Given(g.code, silent)
  }

  ghost predicate Known(g: Gen, din: Arrivals, silent: set<string>) {
    forall k :: k in din ==> LabelNumber(k) < g.labels && din[k] <= GivenIn(g.done, silent) + Given(g.code, silent)
  }

  ghost predicate Flow(g: Gen, din: Arrivals, avail: set<RegID>, rules: Rules) {
    && Chain(g.done, din, rules)
    && Available(g, din, avail, rules.silent)
    && din[g.here] <= GivenIn(g.done, rules.silent)
    && InOrder(g.code, TopIn(g.done), din[g.here], rules)
    && Top(g.code, TopIn(g.done)) == g.regs
    && NoTerminator(g.code)
    && Known(g, din, rules.silent)
  }

  // The invariant as a value. Keeping it that way lets the lemmas about statements pass it
  // along without looking at what it says.
  datatype Tracker = Tracker(rules: Rules, ghost holds: (Gen, Arrivals, set<RegID>) -> bool)

  ghost predicate Tracks(t: Tracker) {
    forall g, din, avail {:trigger Flow(g, din, avail, t.rules)} ::
      t.holds(g, din, avail) == Flow(g, din, avail, t.rules)
  }

  ghost function Tracking(rules: Rules): (t: Tracker)
    ensures t.rules == rules && Tracks(t)
  {
    Tracker(rules, (g, din, avail) => Flow(g, din, avail, rules))
  }

  type Track = t: Tracker | Tracks(t) ghost witness Tracking(Rules({}, {}, 0, false))

  lemma FlowFewer(g: Gen, din: Arrivals, avail: set<RegID>, fewer: set<RegID>, tr: Track)
    requires tr.holds(g, din, avail) && fewer <= avail
    ensures tr.holds(g, din, fewer)
  {
    assert Flow(g, din, avail, tr.rules);
    assert Flow(g, din, fewer, tr.rules);
  }

  lemma AppendSplits(g: Gen, i: Instr)
    ensures Append(g, i).code[..|g.code|] == g.code && Append(g, i).code[|g.code|] == i
  {
  }

  lemma FlowBuild(g: Gen, din: Arrivals, avail: set<RegID>, op: Opcode, operands: seq<Operand>, tag: string, tr: Track)
    requires tr.holds(g, din, avail) && !op.Ret? && !op.Branch? && !op.CondBranch?
    requires Fits(Instr(op, g.regs + 1, operands, tag), g.regs, avail, tr.rules)
    ensures var z := Build(g, op, operands, tag);
            tr.holds(z.g, din, avail + if Yields(Instr(op, z.reg, operands, tag), tr.rules.silent) then {z.reg} else {})
  {
    assert Flow(g, din, avail, tr.rules);
    var i := Instr(op, g.regs + 1, operands, tag);
    AppendSplits(g, i);
    assert Build(g, op, operands, tag).g.code == Append(g, i).code;
    assert Flow(Build(g, op, operands, tag).g, din, avail + if Yields(i, tr.rules.silent) then {i.dest}
                else {}, tr.rules);
  }

  lemma FlowStore(g: Gen, din: Arrivals, avail: set<RegID>, value: RegID, ptr: RegID, tr: Track)
    requires tr.holds(g, din, avail) && value in avail && ptr in avail
    ensures tr.holds(EmitStore(g, value, ptr), din, avail)
  {
    assert Flow(g, din, avail, tr.rules);
    AppendSplits(g, Instr(Opcode.Store, NO_REG, [Reg(value), Reg(ptr)], ""));
    assert Flow(EmitStore(g, value, ptr), din, avail, tr.rules);
  }

  lemma FlowBind(g: Gen, din: Arrivals, avail: set<RegID>, x: string, slot: RegID, tr: Track)
    requires tr.holds(g, din, avail)
    ensures tr.holds(Bind(g, x, slot), din, avail)
  {
    assert Flow(g, din, avail, tr.rules);
    assert Flow(Bind(g, x, slot), din, avail, tr.rules);
  }

  // Fresh labels are announced with the registers available now.
  ghost function Announce(din: Arrivals, names: set<string>, avail: set<RegID>): Arrivals {
    din + map n | n in names :: avail
  }

  lemma Unannounced(g: Gen, din: Arrivals, avail: set<RegID>, names: set<string>, tr: Track)
    requires tr.holds(g, din, avail) && forall n :: n in names ==> g.labels <= LabelNumber(n)
    ensures names !! din.Keys
  {
    assert Flow(g, din, avail, tr.rules);
  }

  lemma FlowTake(g: Gen, din: Arrivals, avail: set<RegID>, k: nat, tr: Track)
    requires tr.holds(g, din, avail)
    ensures tr.holds(TakeLabels(g, k), din, avail)
  {
    assert Flow(g, din, avail, tr.rules);
    assert Flow(TakeLabels(g, k), din, avail, tr.rules);
  }

  lemma FlowAnnounce(g: Gen, din: Arrivals, avail: set<RegID>, names: set<string>, arrive: set<RegID>, tr: Track)
    requires tr.holds(g, din, avail) && arrive <= avail
    requires names !! din.Keys && forall n :: n in names ==> LabelNumber(n) < g.labels
    ensures tr.holds(g, Announce(din, names, arrive), avail)
    ensures DinGrew(din, Announce(din, names, arrive))
  {
    assert Flow(g, din, avail, tr.rules);
    ChainGrows(g.done, din, Announce(din, names, arrive), tr.rules);
    assert Flow(g, Announce(din, names, arrive), avail, tr.rules);
  }

  // The next k labels, announced with the registers available now.
  lemma FlowLabels(g: Gen, din: Arrivals, avail: set<RegID>, k: nat, names: set<string>, arrive: set<RegID>, tr: Track)
    requires tr.holds(g, din, avail) && arrive <= avail
    requires forall n :: n in names ==> g.labels <= LabelNumber(n) < g.labels + k
    ensures tr.holds(TakeLabels(g, k), Announce(din, names, arrive), avail)
    ensures DinGrew(din, Announce(din, names, arrive))
  {
    Unannounced(g, din, avail, names, tr);
    FlowTake(g, din, avail, k, tr);
    FlowAnnounce(TakeLabels(g, k), din, avail, names, arrive, tr);
  }

  // A terminator, then the start of the next block.
  lemma FlowNext(g: Gen, din: Arrivals, avail: set<RegID>, i: Instr, name: string, tr: Track)
    requires tr.holds(g, din, avail) && IsTerminator(i) && i.dest == NO_REG
    requires Fits(i, g.regs, avail, tr.rules) && EdgesFit(i, avail, din) && name in din
    ensures tr.holds(StartBlock(Append(g, i), name), din, din[name])
  {
    assert Flow(g, din, avail, tr.rules);
    var h := Append(g, i);
    var k := StartBlock(h, name);
    AppendSplits(g, i);
    assert k.done[..|g.done|] == g.done && k.done[|g.done|] == BasicBlock(g.here, h.code);
    forall j | j in h.code ensures EdgesFit(j, din[g.here] + Given(h.code, tr.rules.silent), din) {
      if j != i {
        assert j in g.code;
        assert !IsTerminator(j);
      }
    }
    assert BlockFits(k.done[|g.done|], TopIn(g.done), GivenIn(g.done, tr.rules.silent), din, tr.rules);
    assert Flow(k, din, din[name], tr.rules);
  }

  // Expressions.

  predicate Answers(x: string, rules: Rules) {
    x !in rules.silent && x !in rules.banned
  }

  predicate Lenient(rules: Rules) {
    rules.wide && rules.silent == {} && rules.banned == {}
  }

  // Every call inside the expression gives a value.
  predicate Heard(e: Expr, rules: Rules)
    decreases e, 0
  {
    match e
    case Ident(x) => IsBareCall(x) ==> Answers(x, rules)
    case Binary(_, l, r) => Heard(l, rules) && Heard(r, rules)
    case Unary(_, x) => Heard(x, rules)
    case AssignExpr(_, target, value) => Heard(target, rules) && Heard(value, rules)
    case Call(callee, args) =>
      (if callee.Ident? then Answers(callee.name, rules) else Lenient(rules) && Heard(callee, rules)) &&
        HeardIn(args, rules)
    case Index(base, index) => Heard(base, rules) && Heard(index, rules)
    case Member(obj, _) => Heard(obj, rules)
    case Cast(x, _) => rules.wide && Heard(x, rules)
    case ArrayLit(es) => HeardIn(es, rules)
    case _ => true
  }

  predicate HeardIn(es: seq<Expr>, rules: Rules)
    decreases es, 0
  {
    es == [] || (Heard(es[0], rules) && HeardIn(es[1..], rules))
  }

  // The slots of all names that are not stale are available.
  ghost predicate Current(slots: map<string, RegID>, stale: set<string>, avail: set<RegID>) {
    forall x :: x in slots && x !in stale ==> slots[x] in avail
  }

  lemma FlowPlainBuild(g: Gen, din: Arrivals, avail: set<RegID>, op: Opcode, operands: seq<Operand>, tag: string,
                       tr: Track)
    requires tr.holds(g, din, avail)
    requires !op.Ret? && !op.Branch? && !op.CondBranch? && !op.Call? && !op.Param? && !op.Phi? && !op.Store?
    requires op.Cast? ==> tr.rules.wide
    requires op.Copy? ==> |operands| == 1 && !operands[0].Reg?
    requires forall o :: o in operands && o.Reg? ==> o.reg in avail
    ensures tr.holds(Build(g, op, operands, tag).g, din, avail + {Build(g, op, operands, tag).reg})
  {
    FlowBuild(g, din, avail, op, operands, tag, tr);
  }

  lemma FlowCall(g: Gen, din: Arrivals, avail: set<RegID>, regs: seq<RegID>, f: string, tr: Track)
    requires tr.holds(g, din, avail) && f !in tr.rules.banned && forall r :: r in regs ==> r in avail
    ensures tr.holds(Build(g, Opcode.Call, RegOperands(regs), f).g, din, avail)
    ensures f !in tr.rules.silent ==>
      tr.holds(Build(g, Opcode.Call, RegOperands(regs), f).g, din,
               avail + {Build(g, Opcode.Call, RegOperands(regs), f).reg})
  {
    FlowBuild(g, din, avail, Opcode.Call, RegOperands(regs), f, tr);
    var z := Build(g, Opcode.Call, RegOperands(regs), f);
    var more := avail + if f !in tr.rules.silent then {z.reg} else {};
    assert tr.holds(z.g, din, more);
    FlowFewer(z.g, din, more, avail, tr);
  }

  lemma LeafFlow(e: Expr, g: Gen, din: Arrivals, avail: set<RegID>, stale: set<string>, tr: Track)
    requires e.IntLit? || e.FloatLit? || e.StringLit? || e.CharLit? || e.BoolLit? || e.NilLit? || e.Ident?
    requires Traced(e, stale) && Heard(e, tr.rules) && tr.holds(g, din, avail) && Current(g.slots, stale, avail)
    ensures tr.holds(GenExpr(e, g).g, din, avail + {GenExpr(e, g).reg})
  {
    match e
    case IntLit(v) => FlowPlainBuild(g, din, avail, Copy, [IntImm(v)], "", tr);
    case FloatLit(t) => FlowPlainBuild(g, din, avail, Copy, [FloatImm(t)], "", tr);
    case StringLit(t) => FlowPlainBuild(g, din, avail, Copy, [StringRef(t)], "", tr);
    case CharLit(c) => FlowPlainBuild(g, din, avail, Copy, [IntImm(c)], "", tr);
    case BoolLit(b) => FlowPlainBuild(g, din, avail, Copy, [BoolImm(b)], "", tr);
    case NilLit => FlowPlainBuild(g, din, avail, Copy, [IntImm(0)], "nil", tr);
    case Ident(x) => IdentFlow(x, g, din, avail, stale, tr);
  }

  lemma IdentFlow(x: string, g: Gen, din: Arrivals, avail: set<RegID>, stale: set<string>, tr: Track)
    requires (IsBareCall(x) ==> Answers(x, tr.rules)) && (!IsBareCall(x) ==> x !in stale)
    requires tr.holds(g, din, avail) && Current(g.slots, stale, avail)
    ensures tr.holds(GenIdent(x, g).g, din, avail + {GenIdent(x, g).reg})
  {
    if IsBareCall(x) {
      assert RegOperands([]) == [];
      FlowCall(g, din, avail, [], x, tr);
    } else if x in g.slots {
      FlowPlainBuild(g, din, avail, Load, [Reg(g.slots[x])], "", tr);
    } else {
      FlowPlainBuild(g, din, avail, Load, [], x, tr);
    }
  }

  // A register computed with the help of others, which are of no further use.
  lemma FlowResult(z: ExprGen, din: Arrivals, avail: set<RegID>, more: set<RegID>, tr: Track)
    requires tr.holds(z.g, din, more) && avail <= more && z.reg in more
    ensures tr.holds(z.g, din, avail + {z.reg})
  {
    assert Flow(z.g, din, more, tr.rules);
    assert Flow(z.g, din, avail + {z.reg}, tr.rules);
  }

  // One more instruction on a register that is of no further use.
  lemma OneFlow(op: Opcode, os: seq<Operand>, tag: string, a: ExprGen, din: Arrivals, avail: set<RegID>, tr: Track)
    requires !op.Ret? && !op.Branch? && !op.CondBranch? && !op.Call? && !op.Param? && !op.Phi? && !op.Copy? &&
      !op.Store?
    requires (op.Cast? ==> tr.rules.wide) && forall o :: o in os && o.Reg? ==> o.reg == a.reg
    requires tr.holds(a.g, din, avail + {a.reg})
    ensures var z := Build(a.g, op, os, tag);
            tr.holds(z.g, din, avail + {z.reg})
  {
    FlowPlainBuild(a.g, din, avail + {a.reg}, op, os, tag, tr);
    var z := Build(a.g, op, os, tag);
    FlowResult(z, din, avail, avail + {a.reg} + {z.reg}, tr);
  }

  // The opcode of a prefix operator; `&x` builds no instruction.
  lemma UnaryFlow(op: Ast.UnaryOp, a: ExprGen, din: Arrivals, avail: set<RegID>, tr: Track)
    requires !op.AddrOf? && tr.holds(a.g, din, avail + {a.reg})
    ensures var z := Build(a.g, if op.Deref? then Load else UnaryOpcode(op), [Reg(a.reg)], "");
            tr.holds(z.g, din, avail + {z.reg})
  {
    OneFlow(if op.Deref? then Load else UnaryOpcode(op), [Reg(a.reg)], "", a, din, avail, tr);
  }

  lemma StoreFlow(target: Expr, a: ExprGen, din: Arrivals, avail: set<RegID>, stale: set<string>, tr: Track)
    requires target.Ident? ==> target.name !in stale
    requires Current(a.g.slots, stale, avail) && tr.holds(a.g, din, avail + {a.reg})
    ensures tr.holds(StoreTo(a.g, target, a.reg), din, avail + {a.reg})
  {
    if target.Ident? && target.name in a.g.slots {
      FlowStore(a.g, din, avail + {a.reg}, a.reg, a.g.slots[target.name], tr);
    }
  }

  lemma CallFlow(f: string, a: ArgsGen, din: Arrivals, avail: set<RegID>, tr: Track)
    requires tr.holds(a.g, din, avail + (set r | r in a.regs)) && Answers(f, tr.rules)
    ensures var z := Build(a.g, Opcode.Call, RegOperands(a.regs), f);
            tr.holds(z.g, din, avail + {z.reg})
  {
    var regs := set r | r in a.regs;
    FlowCall(a.g, din, avail + regs, a.regs, f, tr);
    var z := Build(a.g, Opcode.Call, RegOperands(a.regs), f);
    FlowResult(z, din, avail, avail + regs + {z.reg}, tr);
  }

  lemma {:induction false} ExprFlow(e: Expr, g: Gen, din: Arrivals, avail: set<RegID>, stale: set<string>, tr: Track)
    requires Traced(e, stale) && Heard(e, tr.rules) && tr.holds(g, din, avail) && Current(g.slots, stale, avail)
    ensures tr.holds(GenExpr(e, g).g, din, avail + {GenExpr(e, g).reg})
    decreases e, 2
  {
    match e
    case Binary(op, l, r) => TwoFlow(e, l, r, BinaryOpcode(op), g, din, avail, stale, tr);
    case Unary(op, x) =>
      ExprFlow(x, g, din, avail, stale, tr);
      if !op.AddrOf? {
        UnaryFlow(op, GenExpr(x, g), din, avail, tr);
      }
    case AssignExpr(_, _, _) => AssignFlow(e, g, din, avail, stale, tr);
    case Call(_, _) => CallExprFlow(e, g, din, avail, stale, tr);
    case Index(base, index) => TwoFlow(e, base, index, Opcode.Add, g, din, avail, stale, tr);
    case Member(obj, field) =>
      ExprFlow(obj, g, din, avail, stale, tr);
      OneFlow(Load, [], field, GenExpr(obj, g), din, avail, tr);
    case Cast(x, _) =>
      ExprFlow(x, g, din, avail, stale, tr);
      OneFlow(Opcode.Cast, [Reg(GenExpr(x, g).reg)], "?", GenExpr(x, g), din, avail, tr);
    case ArrayLit(es) => ElementsFlow(es, 0, NO_REG, g, din, avail, stale, tr);
    case _ => LeafFlow(e, g, din, avail, stale, tr);
  }

  lemma {:induction false} CallExprFlow(e: Expr, g: Gen, din: Arrivals, avail: set<RegID>, stale: set<string>,
                                        tr: Track)
    requires e.Call?
    requires Traced(e, stale) && Heard(e, tr.rules) && tr.holds(g, din, avail) && Current(g.slots, stale, avail)
    ensures tr.holds(GenExpr(e, g).g, din, avail + {GenExpr(e, g).reg})
    decreases e, 1
  {
    if e.callee.Ident? {
      ArgsFlow(e.args, g, din, avail, stale, tr);
      CallFlow(e.callee.name, GenArgs(e.args, g), din, avail, tr);
    } else {
      var f := GenExpr(e.callee, g);
      var regs := set r | r in GenArgs(e.args, f.g).regs;
      ExprPlain(e.callee, g);
      ExprFlow(e.callee, g, din, avail, stale, tr);
      ArgsFlow(e.args, f.g, din, avail + {f.reg}, stale, tr);
      FlowFewer(GenArgs(e.args, f.g).g, din, avail + {f.reg} + regs, avail + regs, tr);
      CallFlow("%" + Decimal(f.reg), GenArgs(e.args, f.g), din, avail, tr);
    }
  }

  // The elements from number i on; `first` is the slot of element 0 once it exists.
  lemma {:induction false} ElementsFlow(es: seq<Expr>, i: nat, first: RegID, g: Gen, din: Arrivals, avail: set<RegID>,
                                        stale: set<string>, tr: Track)
    requires TracedIn(es, stale) && HeardIn(es, tr.rules) && tr.holds(g, din, avail) && Current(g.slots, stale, avail)
    requires if i == 0 then es != [] else first in avail
    ensures tr.holds(GenElements(es, i, first, g).g, din, avail + {GenElements(es, i, first, g).reg})
    decreases es, 0
  {
    if es == [] {
      assert avail + {first} == avail;
    } else {
      var a := GenExpr(es[0], g);
      var slot := Build(a.g, Alloca, [], "__arr_" + Decimal(i));
      var more := avail + {a.reg} + {slot.reg};
      ExprPlain(es[0], g);
      ExprFlow(es[0], g, din, avail, stale, tr);
      FlowPlainBuild(a.g, din, avail + {a.reg}, Alloca, [], "__arr_" + Decimal(i), tr);
      FlowStore(slot.g, din, more, a.reg, slot.reg, tr);
      var rest := EmitStore(slot.g, a.reg, slot.reg);
      var start := if i == 0 then slot.reg else first;
      ElementsFlow(es[1..], i + 1, start, rest, din, more, stale, tr);
      var z := GenElements(es[1..], i + 1, start, rest);
      FlowFewer(z.g, din, more + {z.reg}, avail + {z.reg}, tr);
    }
  }

  lemma {:induction false} AssignFlow(e: Expr, g: Gen, din: Arrivals, avail: set<RegID>, stale: set<string>, tr: Track)
    requires e.AssignExpr?
    requires Traced(e, stale) && Heard(e, tr.rules) && tr.holds(g, din, avail) && Current(g.slots, stale, avail)
    ensures tr.holds(GenExpr(e, g).g, din, avail + {GenExpr(e, g).reg})
    decreases e, 1
  {
    var AssignExpr(op, target, value) := e;
    if op.Assign? {
      ExprFlow(value, g, din, avail, stale, tr);
      ExprPlain(value, g);
      StoreFlow(target, GenExpr(value, g), din, avail, stale, tr);
    } else {
      TwoFlow(e, target, value, AssignOpcode(op), g, din, avail, stale, tr);
      var a := GenExpr(target, g);
      var b := GenExpr(value, a.g);
      ExprPlain(target, g);
      ExprPlain(value, a.g);
      StoreFlow(target, Build(b.g, AssignOpcode(op), [Reg(a.reg), Reg(b.reg)], ""), din, avail, stale, tr);
    }
  }

  lemma {:induction false} TwoFlow(whole: Expr, l: Expr, r: Expr, op: Opcode, g: Gen, din: Arrivals, avail: set<RegID>,
                                   stale: set<string>, tr: Track)
    requires (whole decreases to l) && (whole decreases to r)
    requires Traced(l, stale) && Traced(r, stale) && Heard(l, tr.rules) && Heard(r, tr.rules)
    requires !op.Ret? && !op.Branch? && !op.CondBranch? && !op.Call? && !op.Param? && !op.Cast? && !op.Phi? &&
      !op.Copy? && !op.Store?
    requires tr.holds(g, din, avail) && Current(g.slots, stale, avail)
    ensures var a := GenExpr(l, g);
            var b := GenExpr(r, a.g);
            var z := Build(b.g, op, [Reg(a.reg), Reg(b.reg)], "");
            tr.holds(z.g, din, avail + {z.reg})
    decreases whole, 0
  {
    var a := GenExpr(l, g);
    var b := GenExpr(r, a.g);
    var z := Build(b.g, op, [Reg(a.reg), Reg(b.reg)], "");
    ExprPlain(l, g);
    ExprFlow(l, g, din, avail, stale, tr);
    ExprFlow(r, a.g, din, avail + {a.reg}, stale, tr);
    var both := avail + {a.reg} + {b.reg};
    FlowPlainBuild(b.g, din, both, op, [Reg(a.reg), Reg(b.reg)], "", tr);
    FlowResult(z, din, avail, both + {z.reg}, tr);
  }

  lemma {:induction false} ArgsFlow(args: seq<Expr>, g: Gen, din: Arrivals, avail: set<RegID>, stale: set<string>,
                                    tr: Track)
    requires TracedIn(args, stale) && HeardIn(args, tr.rules) && tr.holds(g, din, avail) &&
      Current(g.slots, stale, avail)
    ensures tr.holds(GenArgs(args, g).g, din, avail + (set r | r in GenArgs(args, g).regs))
    decreases args, 0
  {
    if args == [] {
      assert avail + (set r | r in GenArgs(args, g).regs) == avail;
    } else {
      var a := GenExpr(args[0], g);
      var rest := GenArgs(args[1..], a.g);
      ExprPlain(args[0], g);
      ExprFlow(args[0], g, din, avail, stale, tr);
      ArgsFlow(args[1..], a.g, din, avail + {a.reg}, stale, tr);
      assert avail + (set r | r in [a.reg] + rest.regs) == avail + {a.reg} + (set r | r in rest.regs);
    }
  }

  // Jumps.

  // A label that may be jumped to with the registers in `avail`.
  ghost predicate Reachable(din: Arrivals, name: string, avail: set<RegID>) {
    name in din && din[name] <= avail
  }

  lemma BranchFlow(g: Gen, din: Arrivals, avail: set<RegID>, target: string, name: string, tr: Track)
    requires tr.holds(g, din, avail) && Reachable(din, target, avail) && name in din
    ensures tr.holds(StartBlock(EmitBranch(g, target), name), din, din[name])
  {
    FlowNext(g, din, avail, Instr(Branch, NO_REG, [], target), name, tr);
  }

  lemma CloseFlow(g: Gen, din: Arrivals, avail: set<RegID>, target: string, name: string, tr: Track)
    requires tr.holds(g, din, avail) && Reachable(din, target, avail) && name in din
    ensures tr.holds(Close(g, target, name), din, din[name])
  {
    assert !IsTerminated(g.code) by {
      assert Flow(g, din, avail, tr.rules);
    }
    BranchFlow(g, din, avail, target, name, tr);
  }

  lemma CondFlow(g: Gen, din: Arrivals, avail: set<RegID>, r: RegID, t: string, f: string, tr: Track)
    requires tr.holds(g, din, avail) && r in avail && ',' !in t
    requires Reachable(din, t, avail) && Reachable(din, f, avail)
    ensures tr.holds(StartBlock(EmitCondBranch(g, r, t, f), t), din, din[t])
  {
    SplitJoin(t, f);
    var i := Instr(CondBranch, NO_REG, [Reg(r)], JoinTargets(t, f));
    assert Targets(i) == {t, f};
    FlowNext(g, din, avail, i, t, tr);
  }

  // Statements.

  predicate HeardStmt(s: Stmt, rules: Rules)
    decreases s, 0
  {
    match s
    case Block(ss) => HeardStmts(ss, rules)
    // The value of a call that is a statement of its own is not used.
    case ExprStmt(e) =>
      if e.Call? && e.callee.Ident? then e.callee.name !in rules.banned && HeardIn(e.args, rules) else Heard(e, rules)
    case VarDecl(_, _, init) => init.Some? ==> Heard(init.value, rules)
    case Return(result) => result.Some? ==> Heard(result.value, rules)
    case If(c, t, None) => Heard(c, rules) && HeardStmt(t, rules)
    case If(c, t, Some(f)) => Heard(c, rules) && HeardStmt(t, rules) && HeardStmt(f, rules)
    case While(c, body) => Heard(c, rules) && HeardStmt(body, rules)
    case Vloop(c, body) => Heard(c, rules) && HeardStmt(body, rules)
    case For(_, iterable, body) => Heard(iterable, rules) && HeardStmt(body, rules)
    case Match(subject, arms) => Heard(subject, rules) && HeardArms(arms, rules)
    case _ => true
  }

  predicate HeardStmts(ss: seq<Stmt>, rules: Rules)
    decreases ss, 0
  {
    ss == [] || (HeardStmt(ss[0], rules) && HeardStmts(ss[1..], rules))
  }

  predicate HeardArms(arms: seq<MatchArm>, rules: Rules)
    decreases arms, 0
  {
    arms == [] ||
    ((assert (arms decreases to arms[0]) && (arms[0] decreases to arms[0].body);
      HeardStmt(arms[0].body, rules)) &&
     (arms[0].pattern.Some? ==> Heard(arms[0].pattern.value, rules)) && HeardArms(arms[1..], rules))
  }

  // A condition whose two targets are among freshly announced labels.
  lemma TestFlow(x: ExprGen, k: nat, t: string, f: string, names: set<string>, din: Arrivals, avail: set<RegID>,
                 tr: Track)
    requires tr.holds(x.g, din, avail + {x.reg}) && t in names && f in names && ',' !in t
    requires forall n :: n in names ==> x.g.labels <= LabelNumber(n) < x.g.labels + k
    ensures var din' := Announce(din, names, avail);
            tr.holds(StartBlock(EmitCondBranch(TakeLabels(x.g, k), x.reg, t, f), t), din', avail) && DinGrew(din, din')
  {
    FlowLabels(x.g, din, avail + {x.reg}, k, names, avail, tr);
    CondFlow(TakeLabels(x.g, k), Announce(din, names, avail), avail + {x.reg}, x.reg, t, f, tr);
  }

  lemma CurrentSame(g: Gen, h: Gen, stale: set<string>, avail: set<RegID>)
    requires Visits(g, h, {}) && Current(g.slots, stale, avail)
    ensures Current(h.slots, stale, avail)
  {
  }

  // The labels of an if statement numbered from n.
  ghost function IfNames(hasElse: bool, n: nat): set<string> {
    if hasElse then {MakeLabel(Then, n), MakeLabel(Else, n + 1), MakeLabel(Merge, n + 2)}
    else {MakeLabel(Then, n), MakeLabel(Merge, n + 1)}
  }

  lemma IfNamesFresh(hasElse: bool, n: nat)
    ensures forall x :: x in IfNames(hasElse, n) ==> n <= LabelNumber(x) < n + if hasElse then 3 else 2
  {
    LabelNumberOfLabel(Then, n);
    LabelNumberOfLabel(if hasElse then Else else Merge, n + 1);
    LabelNumberOfLabel(Merge, n + 2);
  }

  lemma IfTestFlow(x: ExprGen, hasElse: bool, n: nat, din: Arrivals, avail: set<RegID>, tr: Track)
    requires tr.holds(x.g, din, avail + {x.reg}) && n == x.g.labels
    ensures var din' := Announce(din, IfNames(hasElse, n), avail);
            var t, f := MakeLabel(Then, n), MakeLabel(if hasElse then Else else Merge, n + 1);
            && tr.holds(StartBlock(EmitCondBranch(TakeLabels(x.g, if hasElse then 3 else 2), x.reg, t, f), t), din',
                        avail)
            && DinGrew(din, din')
  {
    LabelHasNoComma(Then, n);
    IfNamesFresh(hasElse, n);
    if hasElse {
      TestFlow(x, 3, MakeLabel(Then, n), MakeLabel(Else, n + 1), IfNames(true, n), din, avail, tr);
    } else {
      TestFlow(x, 2, MakeLabel(Then, n), MakeLabel(Merge, n + 1), IfNames(false, n), din, avail, tr);
    }
  }

  // Labels to be jumped to with exactly the registers in `avail`.
  ghost predicate Awaits(din: Arrivals, names: set<string>, avail: set<RegID>) {
    forall n :: n in names ==> n in din && din[n] == avail
  }

  lemma ThenFlow(c: Expr, hasElse: bool, g: Gen, din: Arrivals, avail: set<RegID>, stale: set<string>, tr: Track)
      returns (din': Arrivals)
    requires Traced(c, stale) && Heard(c, tr.rules) && tr.holds(g, din, avail) && Current(g.slots, stale, avail)
    ensures tr.holds(ThenHead(c, hasElse, g), din', avail) && Current(ThenHead(c, hasElse, g).slots, stale, avail)
    ensures DinGrew(din, din') && Awaits(din', IfNames(hasElse, IfLabels(c, g)), avail)
  {
    ExprFlow(c, g, din, avail, stale, tr);
    IfTestFlow(GenExpr(c, g), hasElse, IfLabels(c, g), din, avail, tr);
    din' := Announce(din, IfNames(hasElse, IfLabels(c, g)), avail);
    VisitsThenHead(c, hasElse, g);
    CurrentSame(g, ThenHead(c, hasElse, g), stale, avail);
  }

  lemma LoopHeadFlow(c: Expr, cond: string, bodyName: string, exit: string, g: Gen, din: Arrivals, avail: set<RegID>,
                     stale: set<string>, tr: Track) returns (din': Arrivals)
    requires LabelNumber(cond) == g.labels && LabelNumber(bodyName) == g.labels + 1 && LabelNumber(exit) == g.labels + 2
    requires ',' !in bodyName
    requires Traced(c, stale) && Heard(c, tr.rules) && tr.holds(g, din, avail) && Current(g.slots, stale, avail)
    ensures tr.holds(LoopHead(c, cond, bodyName, exit, g), din', avail) && DinGrew(din, din')
    ensures cond in din' && din'[cond] == avail && exit in din' && din'[exit] == avail
  {
    FlowLabels(g, din, avail, 3, {cond, bodyName, exit}, avail, tr);
    din' := Announce(din, {cond, bodyName, exit}, avail);
    BranchFlow(TakeLabels(g, 3), din', avail, cond, cond, tr);
    var atCond := StartBlock(EmitBranch(TakeLabels(g, 3), cond), cond);
    ExprFlow(c, atCond, din', avail, stale, tr);
    var x := GenExpr(c, atCond);
    CondFlow(x.g, din', avail + {x.reg}, x.reg, bodyName, exit, tr);
  }

  lemma CounterInitFlow(g: Gen, din: Arrivals, avail: set<RegID>, tr: Track)
    requires tr.holds(g, din, avail)
    ensures tr.holds(CounterInit(g).g, din, avail + {CounterInit(g).reg})
  {
    FlowTake(g, din, avail, 4, tr);
    var slot := Build(TakeLabels(g, 4), Alloca, [], MakeLabel(VloopCounter, g.labels));
    FlowPlainBuild(TakeLabels(g, 4), din, avail, Alloca, [], MakeLabel(VloopCounter, g.labels), tr);
    var zero := Build(slot.g, Copy, [IntImm(0)], "");
    FlowPlainBuild(slot.g, din, avail + {slot.reg}, Copy, [IntImm(0)], "", tr);
    FlowStore(zero.g, din, avail + {slot.reg} + {zero.reg}, zero.reg, slot.reg, tr);
    FlowFewer(CounterInit(g).g, din, avail + {slot.reg} + {zero.reg}, avail + {slot.reg}, tr);
  }

  lemma CounterHeadFlow(limit: int, slot: RegID, cond: string, bodyName: string, exit: string, g: Gen, din: Arrivals,
                        avail: set<RegID>, tr: Track)
    requires tr.holds(g, din, avail) && slot in avail && ',' !in bodyName
    requires forall n :: n in {cond, bodyName, exit} ==> n in din && din[n] == avail
    ensures tr.holds(CounterHead(limit, slot, cond, bodyName, exit, g), din, avail)
  {
    BranchFlow(g, din, avail, cond, cond, tr);
    var atCond := StartBlock(EmitBranch(g, cond), cond);
    var cur := Build(atCond, Load, [Reg(slot)], "");
    FlowPlainBuild(atCond, din, avail, Load, [Reg(slot)], "", tr);
    var lim := Build(cur.g, Copy, [IntImm(limit)], "");
    FlowPlainBuild(cur.g, din, avail + {cur.reg}, Copy, [IntImm(limit)], "", tr);
    CounterTestFlow(cur.reg, lim, bodyName, exit, din, avail, tr);
  }

  lemma CounterTestFlow(cur: RegID, lim: ExprGen, bodyName: string, exit: string, din: Arrivals, avail: set<RegID>,
                        tr: Track)
    requires tr.holds(lim.g, din, avail + {cur} + {lim.reg}) && ',' !in bodyName
    requires forall n :: n in {bodyName, exit} ==> n in din && din[n] == avail
    ensures var cmp := Build(lim.g, CmpLt, [Reg(cur), Reg(lim.reg)], "");
            tr.holds(StartBlock(EmitCondBranch(cmp.g, cmp.reg, bodyName, exit), bodyName), din, avail)
  {
    var three := avail + {cur} + {lim.reg};
    var cmp := Build(lim.g, CmpLt, [Reg(cur), Reg(lim.reg)], "");
    FlowPlainBuild(lim.g, din, three, CmpLt, [Reg(cur), Reg(lim.reg)], "", tr);
    CondFlow(cmp.g, din, three + {cmp.reg}, cmp.reg, bodyName, exit, tr);
  }

  lemma CounterStepFlow(slot: RegID, cond: string, exit: string, g: Gen, din: Arrivals, avail: set<RegID>, tr: Track)
    requires tr.holds(g, din, avail) && slot in avail && Reachable(din, cond, avail) && exit in din
    ensures tr.holds(CounterStep(slot, cond, exit, g), din, din[exit])
  {
    assert !IsTerminated(g.code) by {
      assert Flow(g, din, avail, tr.rules);
    }
    var cur := Build(g, Load, [Reg(slot)], "");
    FlowPlainBuild(g, din, avail, Load, [Reg(slot)], "", tr);
    var one := Build(cur.g, Copy, [IntImm(1)], "");
    FlowPlainBuild(cur.g, din, avail + {cur.reg}, Copy, [IntImm(1)], "", tr);
    IncrementFlow(slot, cur.reg, one, cond, exit, din, avail, tr);
  }

  lemma IncrementFlow(slot: RegID, cur: RegID, one: ExprGen, cond: string, exit: string, din: Arrivals,
                      avail: set<RegID>, tr: Track)
    requires tr.holds(one.g, din, avail + {cur} + {one.reg}) && slot in avail && Reachable(din, cond, avail) &&
      exit in din
    ensures var inc := Build(one.g, Opcode.Add, [Reg(cur), Reg(one.reg)], "");
            tr.holds(StartBlock(EmitBranch(EmitStore(inc.g, inc.reg, slot), cond), exit), din, din[exit])
  {
    var three := avail + {cur} + {one.reg};
    var inc := Build(one.g, Opcode.Add, [Reg(cur), Reg(one.reg)], "");
    FlowPlainBuild(one.g, din, three, Opcode.Add, [Reg(cur), Reg(one.reg)], "", tr);
    FlowStore(inc.g, din, three + {inc.reg}, inc.reg, slot, tr);
    BranchFlow(EmitStore(inc.g, inc.reg, slot), din, three + {inc.reg}, cond, exit, tr);
  }

  lemma ReturnFlow(result: Option<Expr>, g: Gen, din: Arrivals, avail: set<RegID>, stale: set<string>, tr: Track)
    requires result.Some? ==> Traced(result.value, stale) && Heard(result.value, tr.rules)
    requires tr.holds(g, din, avail) && Current(g.slots, stale, avail)
    ensures var din' := Announce(din, {MakeLabel(AfterRet, g.labels)}, avail);
            tr.holds(GenReturn(result, g), din', avail) && DinGrew(din, din')
  {
    LabelNumberOfLabel(AfterRet, g.labels);
    match result
    case None => RetFlow(g, NO_REG, MakeLabel(AfterRet, g.labels), din, avail, avail, tr);
    case Some(e) =>
      var a := GenExpr(e, g);
      ExprPlain(e, g);
      ExprFlow(e, g, din, avail, stale, tr);
      RetFlow(a.g, a.reg, MakeLabel(AfterRet, g.labels), din, avail, avail + {a.reg}, tr);
  }

  lemma RetFlow(g: Gen, r: RegID, name: string, din: Arrivals, avail: set<RegID>, more: set<RegID>, tr: Track)
    requires tr.holds(g, din, more) && (r != NO_REG ==> r in more) && avail <= more && LabelNumber(name) == g.labels
    ensures var din' := Announce(din, {name}, avail);
            tr.holds(StartBlock(TakeLabels(EmitRet(g, r), 1), name), din', avail) && DinGrew(din, din')
  {
    FlowLabels(g, din, more, 1, {name}, avail, tr);
    var h := TakeLabels(g, 1);
    assert TakeLabels(EmitRet(g, r), 1) == EmitRet(h, r);
    FlowNext(h, Announce(din, {name}, avail), more, Instr(Opcode.Ret, NO_REG, if r == NO_REG then []
                                                          else [Reg(r)], ""), name, tr);
  }

  lemma VarDeclFlow(x: string, init: Option<Expr>, g: Gen, din: Arrivals, avail: set<RegID>, stale: set<string>,
                    tr: Track)
    requires init.Some? ==> Traced(init.value, stale - {x}) && Heard(init.value, tr.rules)
    requires tr.holds(g, din, avail) && Current(g.slots, stale, avail)
    ensures var h := GenVarDecl(x, init, g);
            tr.holds(h, din, avail + {g.regs + 1}) && Current(h.slots, stale - {x}, avail + {g.regs + 1})
  {
    var slot := Build(g, Alloca, [], x);
    var bound := Bind(slot.g, x, slot.reg);
    var more := avail + {slot.reg};
    FlowPlainBuild(g, din, avail, Alloca, [], x, tr);
    FlowBind(slot.g, din, more, x, slot.reg, tr);
    if init.Some? {
      InitialFlow(init.value, slot.reg, bound, din, more, stale - {x}, tr);
    }
  }

  // The store of an initial value.
  lemma InitialFlow(e: Expr, slot: RegID, g: Gen, din: Arrivals, avail: set<RegID>, stale: set<string>, tr: Track)
    requires Traced(e, stale) && Heard(e, tr.rules) && slot in avail
    requires tr.holds(g, din, avail) && Current(g.slots, stale, avail)
    ensures var a := GenExpr(e, g);
            tr.holds(EmitStore(a.g, a.reg, slot), din, avail) && a.g.slots == g.slots
  {
    var a := GenExpr(e, g);
    ExprPlain(e, g);
    ExprFlow(e, g, din, avail, stale, tr);
    FlowStore(a.g, din, avail + {a.reg}, a.reg, slot, tr);
    FlowFewer(EmitStore(a.g, a.reg, slot), din, avail + {a.reg}, avail, tr);
  }

  lemma ExprStmtFlow(e: Expr, g: Gen, din: Arrivals, avail: set<RegID>, stale: set<string>, tr: Track)
    requires Traced(e, stale) && HeardStmt(ExprStmt(e), tr.rules) && tr.holds(g, din, avail) &&
      Current(g.slots, stale, avail)
    ensures tr.holds(GenExpr(e, g).g, din, avail)
  {
    if e.Call? && e.callee.Ident? {
      var a := GenArgs(e.args, g);
      ArgsFlow(e.args, g, din, avail, stale, tr);
      var more := avail + (set r | r in a.regs);
      FlowCall(a.g, din, more, a.regs, e.callee.name, tr);
      FlowFewer(GenExpr(e, g).g, din, more, avail, tr);
    } else {
      ExprFlow(e, g, din, avail, stale, tr);
      FlowFewer(GenExpr(e, g).g, din, avail + {GenExpr(e, g).reg}, avail, tr);
    }
  }

  lemma CurrentAfter(g: Gen, h: Gen, names: set<string>, stale: set<string>, avail: set<RegID>)
    requires Visits(g, h, names) && Current(g.slots, stale, avail)
    ensures Current(h.slots, stale + names, avail)
  {
  }

  ghost function AvailAfter(s: Stmt, g: Gen, avail: set<RegID>): set<RegID> {
    if s.VarDecl? then avail + {g.regs + 1} else avail
  }

  lemma {:induction false} StmtFlow(s: Stmt, g: Gen, din: Arrivals, avail: set<RegID>, stale: set<string>, tr: Track)
      returns (din': Arrivals)
    requires TracedStmt(s, stale) && HeardStmt(s, tr.rules) && tr.holds(g, din, avail) && Current(g.slots, stale, avail)
    ensures tr.holds(GenStmt(s, g), din', AvailAfter(s, g, avail)) && DinGrew(din, din')
    ensures Current(GenStmt(s, g).slots, StaleAfter(s, stale), AvailAfter(s, g, avail))
    decreases s, 3
  {
    if s.VarDecl? {
      din' := din;
      VarDeclFlow(s.name, s.init, g, din, avail, stale, tr);
    } else {
      din' := PlainFlow(s, g, din, avail, stale, tr);
      StmtVisits(s, g);
      CurrentAfter(g, GenStmt(s, g), Binds(s), stale, avail);
    }
  }

  lemma {:induction false} PlainFlow(s: Stmt, g: Gen, din: Arrivals, avail: set<RegID>, stale: set<string>, tr: Track)
      returns (din': Arrivals)
    requires TracedBranch(s, stale) && HeardStmt(s, tr.rules) && tr.holds(g, din, avail) &&
      Current(g.slots, stale, avail)
    ensures tr.holds(GenStmt(s, g), din', avail) && DinGrew(din, din')
    decreases s, 2
  {
    match s
    case Block(ss) => din' := StmtsFlow(ss, g, din, avail, stale, tr);
    case ExprStmt(e) =>
      ExprStmtFlow(e, g, din, avail, stale, tr);
      din' := din;
    case Return(result) =>
      ReturnFlow(result, g, din, avail, stale, tr);
      din' := Announce(din, {MakeLabel(AfterRet, g.labels)}, avail);
    case If(_, _, _) => din' := IfFlow(s, g, din, avail, stale, tr);
    case While(c, body) => din' := LoopFlow(c, body, WHILE_LABELS, g, din, avail, stale, tr);
    case Vloop(c, body) =>
      if c.IntLit? {
        din' := CountedFlow(s, g, din, avail, stale, tr);
      } else {
        din' := LoopFlow(c, body, VLOOP_LABELS, g, din, avail, stale, tr);
      }
    case For(_, _, _) => din' := ForFlow(s, g, din, avail, stale, tr);
    case Match(_, _) => din' := MatchFlow(s, g, din, avail, stale, tr);
    case _ => din' := din;
  }

  lemma {:induction false} StmtsFlow(ss: seq<Stmt>, g: Gen, din: Arrivals, avail: set<RegID>, stale: set<string>,
                                     tr: Track)
      returns (din': Arrivals)
    requires TracedStmts(ss, stale) && HeardStmts(ss, tr.rules) && tr.holds(g, din, avail) &&
      Current(g.slots, stale, avail)
    ensures tr.holds(GenStmts(ss, g), din', avail) && DinGrew(din, din')
    decreases ss, 0
  {
    if ss == [] {
      din' := din;
    } else {
      din' := StmtFlow(ss[0], g, din, avail, stale, tr);
      var h := GenStmt(ss[0], g);
      var more := AvailAfter(ss[0], g, avail);
      din' := StmtsFlow(ss[1..], h, din', more, StaleAfter(ss[0], stale), tr);
      FlowFewer(GenStmts(ss, g), din', more, avail, tr);
    }
  }

  // A branch from its first block to the block that follows it.
  lemma {:induction false} ArmFlow(s: Stmt, at: Gen, target: string, name: string, din: Arrivals, avail: set<RegID>,
                                   stale: set<string>, tr: Track) returns (din': Arrivals)
    requires TracedBranch(s, stale) && HeardStmt(s, tr.rules) && tr.holds(at, din, avail) &&
      Current(at.slots, stale, avail)
    requires Reachable(din, target, avail) && name in din && din[name] == avail
    ensures tr.holds(Close(GenStmt(s, at), target, name), din', avail) && DinGrew(din, din')
    decreases s, 3
  {
    din' := PlainFlow(s, at, din, avail, stale, tr);
    CloseFlow(GenStmt(s, at), din', avail, target, name, tr);
  }

  lemma {:induction false} IfFlow(s: Stmt, g: Gen, din: Arrivals, avail: set<RegID>, stale: set<string>, tr: Track)
      returns (din': Arrivals)
    requires s.If? && TracedBranch(s, stale) && HeardStmt(s, tr.rules) && tr.holds(g, din, avail) &&
      Current(g.slots, stale, avail)
    ensures tr.holds(GenStmt(s, g), din', avail) && DinGrew(din, din')
    decreases s, 1
  {
    var n := IfLabels(s.cond, g);
    din' := ThenFlow(s.cond, s.elseBranch.Some?, g, din, avail, stale, tr);
    din' := BranchesFlow(s, ThenHead(s.cond, s.elseBranch.Some?, g), n, MakeLabel(Else, n + 1),
                         MakeLabel(Merge, n + if s.elseBranch.Some? then 2 else 1), din', avail, stale, tr);
  }

  lemma {:induction false} BranchesFlow(s: Stmt, atThen: Gen, n: nat, elseName: string, merge: string, din: Arrivals,
                                        avail: set<RegID>, stale: set<string>, tr: Track) returns (din': Arrivals)
    requires s.If? && TracedBranch(s, stale) && HeardStmt(s, tr.rules)
    requires tr.holds(atThen, din, avail) && Current(atThen.slots, stale, avail)
    requires Awaits(din, if s.elseBranch.Some? then {elseName, merge} else {merge}, avail)
    ensures match s.elseBranch
            case None => tr.holds(Close(GenStmt(s.thenBranch, atThen), merge, merge), din', avail)
            case Some(f) => tr.holds(Close(GenStmt(f, Close(GenStmt(s.thenBranch, atThen), merge, elseName)), merge,
                                           merge), din', avail)
    ensures DinGrew(din, din')
    decreases s, 0
  {
    var If(_, t, other) := s;
    match other
    case None => din' := ArmFlow(t, atThen, merge, merge, din, avail, stale, tr);
    case Some(f) =>
      din' := ArmFlow(t, atThen, merge, elseName, din, avail, stale, tr);
      StmtVisits(t, atThen);
      CurrentAfter(atThen, GenStmt(t, atThen), Binds(t), stale, avail);
      din' := ArmFlow(f, Close(GenStmt(t, atThen), merge, elseName), merge, merge, din', avail, stale + Binds(t), tr);
  }

  lemma {:induction false} LoopFlow(c: Expr, body: Stmt, ls: LoopLabels, g: Gen, din: Arrivals, avail: set<RegID>,
                                    stale: set<string>, tr: Track) returns (din': Arrivals)
    requires Traced(c, stale) && TracedBranch(body, stale) && Heard(c, tr.rules) && HeardStmt(body, tr.rules)
    requires tr.holds(g, din, avail) && Current(g.slots, stale, avail)
    ensures tr.holds(GenLoop(c, body, ls, g), din', avail) && DinGrew(din, din')
    decreases body, 4
  {
    var n := g.labels;
    var cond, bodyName, exit := MakeLabel(ls.cond, n), MakeLabel(ls.body, n + 1), MakeLabel(ls.exit, n + 2);
    LabelNumberOfLabel(ls.cond, n);
    LabelNumberOfLabel(ls.body, n + 1);
    LabelNumberOfLabel(ls.exit, n + 2);
    LabelHasNoComma(ls.body, n + 1);
    din' := LoopHeadFlow(c, cond, bodyName, exit, g, din, avail, stale, tr);
    VisitsLoopHead(c, cond, bodyName, exit, g);
    var atBody := LoopHead(c, cond, bodyName, exit, g);
    CurrentSame(g, atBody, stale, avail);
    din' := ArmFlow(body, atBody, cond, exit, din', avail, stale, tr);
  }

  // The slots of a for loop's variable and of its iterator.
  lemma ForInitFlow(x: string, iterable: Expr, g: Gen, din: Arrivals, avail: set<RegID>, stale: set<string>, tr: Track)
    requires Traced(iterable, stale - {x}) && Heard(iterable, tr.rules)
    requires tr.holds(g, din, avail) && Current(g.slots, stale, avail)
    ensures var init := ForInit(x, iterable, g);
            var more := avail + {g.regs + 1} + {init.reg};
            tr.holds(init.g, din, more) && Current(init.g.slots, stale - {x}, more)
  {
    var slot := Build(g, Alloca, [], x);
    var bound := Bind(slot.g, x, slot.reg);
    var more := avail + {slot.reg};
    FlowPlainBuild(g, din, avail, Alloca, [], x, tr);
    FlowBind(slot.g, din, more, x, slot.reg, tr);
    var it := GenExpr(iterable, bound);
    ExprPlain(iterable, bound);
    ExprFlow(iterable, bound, din, more, stale - {x}, tr);
    var iter := Build(it.g, Alloca, [], "__iter");
    FlowPlainBuild(it.g, din, more + {it.reg}, Alloca, [], "__iter", tr);
    FlowStore(iter.g, din, more + {it.reg} + {iter.reg}, it.reg, iter.reg, tr);
    FlowFewer(ForInit(x, iterable, g).g, din, more + {it.reg} + {iter.reg}, more + {iter.reg}, tr);
  }

  lemma ForTestFlow(iter: RegID, cond: string, bodyName: string, exit: string, g: Gen, din: Arrivals, avail: set<RegID>,
                    tr: Track) returns (din': Arrivals)
    requires LabelNumber(cond) == g.labels && LabelNumber(bodyName) == g.labels + 1 && LabelNumber(exit) == g.labels + 2
    requires ',' !in bodyName && tr.holds(g, din, avail) && iter in avail
    ensures tr.holds(ForTest(iter, cond, bodyName, exit, g), din', avail) && DinGrew(din, din')
    ensures cond in din' && din'[cond] == avail && exit in din' && din'[exit] == avail
  {
    FlowLabels(g, din, avail, 3, {cond, bodyName, exit}, avail, tr);
    din' := Announce(din, {cond, bodyName, exit}, avail);
    BranchFlow(TakeLabels(g, 3), din', avail, cond, cond, tr);
    var atCond := StartBlock(EmitBranch(TakeLabels(g, 3), cond), cond);
    var cur := Build(atCond, Load, [Reg(iter)], "");
    FlowPlainBuild(atCond, din', avail, Load, [Reg(iter)], "", tr);
    CondFlow(cur.g, din', avail + {cur.reg}, cur.reg, bodyName, exit, tr);
  }

  lemma {:induction false} ForFlow(s: Stmt, g: Gen, din: Arrivals, avail: set<RegID>, stale: set<string>, tr: Track)
      returns (din': Arrivals)
    requires s.For? && TracedBranch(s, stale) && HeardStmt(s, tr.rules)
    requires tr.holds(g, din, avail) && Current(g.slots, stale, avail)
    ensures tr.holds(GenStmt(s, g), din', avail) && DinGrew(din, din')
    decreases s, 1
  {
    var init := ForInit(s.variable, s.iterable, g);
    var n := init.g.labels;
    var cond, bodyName, exit := MakeLabel(ForCond, n), MakeLabel(ForBody, n + 1), MakeLabel(ForExit, n + 2);
    LabelNumberOfLabel(ForCond, n);
    LabelNumberOfLabel(ForBody, n + 1);
    LabelNumberOfLabel(ForExit, n + 2);
    LabelHasNoComma(ForBody, n + 1);
    ForInitFlow(s.variable, s.iterable, g, din, avail, stale, tr);
    var more := avail + {g.regs + 1} + {init.reg};
    din' := ForTestFlow(init.reg, cond, bodyName, exit, init.g, din, more, tr);
    var atBody := ForTest(init.reg, cond, bodyName, exit, init.g);
    VisitsForTest(init.reg, cond, bodyName, exit, init.g);
    CurrentSame(init.g, atBody, stale - {s.variable}, more);
    din' := ArmFlow(s.body, atBody, cond, exit, din', more, stale - {s.variable}, tr);
    ForIs(s, g, init, n, cond, bodyName, exit);
    FlowFewer(GenStmt(s, g), din', more, avail, tr);
  }

  ghost function CountedNames(n: nat): set<string> {
    {MakeLabel(VloopCond, n + 1), MakeLabel(VloopBody, n + 2), MakeLabel(VloopExit, n + 3)}
  }

  lemma CountedNamesFresh(n: nat)
    ensures forall x :: x in CountedNames(n) ==> n <= LabelNumber(x) < n + 4
  {
    LabelNumberOfLabel(VloopCond, n + 1);
    LabelNumberOfLabel(VloopBody, n + 2);
    LabelNumberOfLabel(VloopExit, n + 3);
  }

  lemma {:induction false} CountedFlow(s: Stmt, g: Gen, din: Arrivals, avail: set<RegID>, stale: set<string>, tr: Track)
      returns (din': Arrivals)
    requires s.Vloop? && s.cond.IntLit? && TracedBranch(s, stale) && HeardStmt(s, tr.rules)
    requires tr.holds(g, din, avail) && Current(g.slots, stale, avail)
    ensures tr.holds(GenStmt(s, g), din', avail) && DinGrew(din, din')
    decreases s, 1
  {
    var n := g.labels;
    var init := CounterInit(g);
    var more := avail + {init.reg};
    LabelHasNoComma(VloopBody, n + 2);
    din' := AnnounceCounted(init, n, g, din, avail, tr);
    din' := CountedBodyFlow(s.cond.value, s.body, init.reg, MakeLabel(VloopCond, n + 1), MakeLabel(VloopBody, n + 2),
                            MakeLabel(VloopExit, n + 3), init.g, din', more, stale, tr);
    FlowFewer(GenStmt(s, g), din', more, avail, tr);
  }

  lemma AnnounceCounted(init: ExprGen, n: nat, g: Gen, din: Arrivals, avail: set<RegID>, tr: Track)
    returns (din': Arrivals)
    requires tr.holds(g, din, avail) && init == CounterInit(g) && n == g.labels
    ensures tr.holds(init.g, din', avail + {init.reg}) && DinGrew(din, din') &&
      Awaits(din', CountedNames(n), avail + {init.reg})
  {
    CounterInitFlow(g, din, avail, tr);
    CountedNamesFresh(n);
    Unannounced(g, din, avail, CountedNames(n), tr);
    FlowAnnounce(init.g, din, avail + {init.reg}, CountedNames(n), avail + {init.reg}, tr);
    din' := Announce(din, CountedNames(n), avail + {init.reg});
  }

  lemma {:induction false} CountedBodyFlow(limit: int, body: Stmt, slot: RegID, cond: string, bodyName: string,
                                           exit: string,
                                           g: Gen, din: Arrivals, avail: set<RegID>, stale: set<string>, tr: Track)
      returns (din': Arrivals)
    requires TracedBranch(body, stale) && HeardStmt(body, tr.rules) && slot in avail && ',' !in bodyName
    requires forall n :: n in {cond, bodyName, exit} ==> n in din && din[n] == avail
    requires tr.holds(g, din, avail) && Current(g.slots, stale, avail)
    ensures tr.holds(CounterStep(slot, cond, exit, GenStmt(body, CounterHead(limit, slot, cond, bodyName, exit, g))),
                     din', avail)
    ensures DinGrew(din, din')
    decreases body, 3
  {
    CounterHeadFlow(limit, slot, cond, bodyName, exit, g, din, avail, tr);
    VisitsCounterHead(limit, slot, cond, bodyName, exit, g);
    var atBody := CounterHead(limit, slot, cond, bodyName, exit, g);
    CurrentSame(g, atBody, stale, avail);
    din' := PlainFlow(body, atBody, din, avail, stale, tr);
    CounterStepFlow(slot, cond, exit, GenStmt(body, atBody), din', avail, tr);
  }

  lemma {:induction false} MatchFlow(s: Stmt, g: Gen, din: Arrivals, avail: set<RegID>, stale: set<string>, tr: Track)
      returns (din': Arrivals)
    requires s.Match? && TracedBranch(s, stale) && HeardStmt(s, tr.rules) && tr.holds(g, din, avail) &&
      Current(g.slots, stale, avail)
    ensures tr.holds(GenStmt(s, g), din', avail) && DinGrew(din, din')
    decreases s, 1
  {
    var x := GenExpr(s.subject, g);
    ExprFlow(s.subject, g, din, avail, stale, tr);
    ExprPlain(s.subject, g);
    LabelNumberOfLabel(MatchExit, x.g.labels);
    din' := ChainFlow(s.arms, x, MakeLabel(MatchExit, x.g.labels), din, avail + {x.reg}, stale, tr);
    FlowFewer(GenStmt(s, g), din', avail + {x.reg}, avail, tr);
  }

  // A match after its subject.
  lemma {:induction false} ChainFlow(arms: seq<MatchArm>, x: ExprGen, exit: string, din: Arrivals, avail: set<RegID>,
                                     stale: set<string>, tr: Track) returns (din': Arrivals)
    requires (arms == [] || TracedArms(arms, stale)) && HeardArms(arms, tr.rules) && x.reg in avail
    requires tr.holds(x.g, din, avail) && Current(x.g.slots, stale, avail) && LabelNumber(exit) == x.g.labels
    ensures tr.holds(Close(GenArms(arms, x.reg, exit, TakeLabels(x.g, 1)), exit, exit), din', avail) &&
      DinGrew(din, din')
    decreases arms, 2
  {
    FlowLabels(x.g, din, avail, 1, {exit}, avail, tr);
    din' := Announce(din, {exit}, avail);
    if arms == [] {
      CloseFlow(TakeLabels(x.g, 1), din', avail, exit, exit, tr);
    } else {
      din' := ArmsFlow(arms, x.reg, exit, TakeLabels(x.g, 1), din', avail, stale, tr);
    }
  }

  lemma ArmHeadFlow(pattern: Option<Expr>, subject: RegID, bodyName: string, nextName: string, g: Gen, din: Arrivals,
                    avail: set<RegID>, stale: set<string>, tr: Track)
    requires pattern.Some? ==> Traced(pattern.value, stale) && Heard(pattern.value, tr.rules)
    requires tr.holds(g, din, avail) && Current(g.slots, stale, avail) && subject in avail && ',' !in bodyName
    requires forall n :: n in {bodyName, nextName} ==> n in din && din[n] == avail
    ensures tr.holds(ArmHead(pattern, subject, bodyName, nextName, g), din, avail)
  {
    match pattern
    case None => BranchFlow(g, din, avail, bodyName, bodyName, tr);
    case Some(p) =>
      ExprFlow(p, g, din, avail, stale, tr);
      var x := GenExpr(p, g);
      var more := avail + {x.reg};
      var cmp := Build(x.g, CmpEq, [Reg(subject), Reg(x.reg)], "");
      FlowPlainBuild(x.g, din, more, CmpEq, [Reg(subject), Reg(x.reg)], "", tr);
      CondFlow(cmp.g, din, more + {cmp.reg}, cmp.reg, bodyName, nextName, tr);
  }

  // One arm: its labels, its test, its body, and the jump to the exit.
  lemma {:induction false} OneArmFlow(arm: MatchArm, subject: RegID, exit: string, bodyName: string, nextName: string,
                                      k: nat,
                                      after: string, g: Gen, din: Arrivals, avail: set<RegID>, stale: set<string>,
                                        tr: Track)
      returns (din': Arrivals)
    requires TracedBranch(arm.body, stale) && HeardStmt(arm.body, tr.rules) && subject in avail && ',' !in bodyName
    requires arm.pattern.Some? ==> Traced(arm.pattern.value, stale) && Heard(arm.pattern.value, tr.rules)
    requires tr.holds(g, din, avail) && Current(g.slots, stale, avail) && exit in din && din[exit] == avail
    requires forall n :: n in {bodyName, nextName} - {exit} ==> g.labels <= LabelNumber(n) < g.labels + k
    requires bodyName != exit && after in {nextName, exit}
    ensures tr.holds(Close(GenStmt(arm.body, ArmHead(arm.pattern, subject, bodyName, nextName, TakeLabels(g, k))),
                           exit, after), din', avail)
    ensures DinGrew(din, din')
    decreases arm, 0
  {
    var names := {bodyName, nextName} - {exit};
    FlowLabels(g, din, avail, k, names, avail, tr);
    din' := Announce(din, names, avail);
    var at := TakeLabels(g, k);
    ArmHeadFlow(arm.pattern, subject, bodyName, nextName, at, din', avail, stale, tr);
    VisitsArmHead(arm.pattern, subject, bodyName, nextName, at);
    var atBody := ArmHead(arm.pattern, subject, bodyName, nextName, at);
    CurrentSame(at, atBody, stale, avail);
    din' := ArmFlow(arm.body, atBody, exit, after, din', avail, stale, tr);
  }

  lemma {:induction false} ArmsFlow(arms: seq<MatchArm>, subject: RegID, exit: string, g: Gen, din: Arrivals,
                                    avail: set<RegID>,
                                    stale: set<string>, tr: Track) returns (din': Arrivals)
    requires TracedArms(arms, stale) && HeardArms(arms, tr.rules) && subject in avail
    requires tr.holds(g, din, avail) && Current(g.slots, stale, avail) && exit in din && din[exit] == avail
    ensures tr.holds(Close(GenArms(arms, subject, exit, g), exit, exit), din', avail) && DinGrew(din, din')
    decreases arms, 1
  {
    assert (arms decreases to arms[0]) && (arms[0] decreases to arms[0].body);
    var n := g.labels;
    var k := if |arms| == 1 then 1 else 2;
    var bodyName := MakeLabel(ArmBody, n);
    LabelNumberOfLabel(ArmBody, n);
    LabelNumberOfLabel(ArmNext, n + 1);
    LabelHasNoComma(ArmBody, n);
    Unannounced(g, din, avail, {bodyName}, tr);
    din' := FirstArmFlow(arms, subject, exit, bodyName, if |arms| == 1 then exit
                         else MakeLabel(ArmNext, n + 1), k, g, din, avail, stale, tr);
  }

  lemma {:induction false} FirstArmFlow(arms: seq<MatchArm>, subject: RegID, exit: string, bodyName: string,
                                        nextName: string, k: nat,
                                        g: Gen, din: Arrivals, avail: set<RegID>, stale: set<string>, tr: Track)
                                          returns (din': Arrivals)
    requires TracedArms(arms, stale) && HeardArms(arms, tr.rules) && subject in avail && ',' !in bodyName &&
      bodyName != exit
    requires tr.holds(g, din, avail) && Current(g.slots, stale, avail) && exit in din && din[exit] == avail
    requires forall n :: n in {bodyName, nextName} - {exit} ==> g.labels <= LabelNumber(n) < g.labels + k
    ensures DinGrew(din, din')
    ensures var h := GenStmt(arms[0].body, ArmHead(arms[0].pattern, subject, bodyName, nextName, TakeLabels(g, k)));
            tr.holds(Close(if arms[0].pattern.None? then h
                           else GenArms(arms[1..], subject, exit, Close(h, exit, nextName)), exit, exit), din', avail)
    decreases arms, 0
  {
    assert (arms decreases to arms[0]) && (arms decreases to arms[1..]);
    var wild := arms[0].pattern.None?;
    din' := OneArmFlow(arms[0], subject, exit, bodyName, nextName, k, if wild then exit
                       else nextName, g, din, avail, stale, tr);
    if !wild {
      var h := GenStmt(arms[0].body, ArmHead(arms[0].pattern, subject, bodyName, nextName, TakeLabels(g, k)));
      ArmVisits(arms[0], subject, bodyName, nextName, g, k);
      CurrentAfter(g, h, Binds(arms[0].body), stale, avail);
      din' := ArmsFlow(arms[1..], subject, exit, Close(h, exit, nextName), din', avail, stale + Binds(arms[0].body),
                       tr);
    }
  }

  // Parameters.

  lemma ParamFlow(x: string, i: nat, g: Gen, din: Arrivals, avail: set<RegID>, stale: set<string>, tr: Track)
    requires tr.holds(g, din, avail) && Current(g.slots, stale, avail) && g.regs + 1 < tr.rules.params
    ensures var h := GenParam(x, i, g);
            tr.holds(h, din, avail + {g.regs + 1}) && Current(h.slots, stale, avail + {g.regs + 1})
  {
    var slot := Build(g, Alloca, [], x);
    FlowPlainBuild(g, din, avail, Alloca, [], x, tr);
    var incoming := Build(slot.g, Param, [IntImm(i)], "");
    var two := avail + {slot.reg};
    FlowBuild(slot.g, din, two, Param, [IntImm(i)], "", tr);
    FlowStore(incoming.g, din, two + {incoming.reg}, incoming.reg, slot.reg, tr);
    var h := EmitStore(incoming.g, incoming.reg, slot.reg);
    FlowBind(h, din, two + {incoming.reg}, x, slot.reg, tr);
    FlowFewer(Bind(h, x, slot.reg), din, two + {incoming.reg}, two, tr);
  }

  lemma {:induction false} ParamsFlow(params: seq<string>, i: nat, g: Gen, din: Arrivals, avail: set<RegID>, tr: Track)
      returns (avail': set<RegID>)
    requires tr.holds(g, din, avail) && Current(g.slots, {}, avail) && g.regs + 2 * |params| <= tr.rules.params
    ensures tr.holds(GenParams(params, i, g), din, avail')
    ensures Current(GenParams(params, i, g).slots, {}, avail')
    ensures GenParams(params, i, g).regs == g.regs + 2 * |params|
    decreases params
  {
    if params == [] {
      avail' := avail;
    } else {
      ParamFlow(params[0], i, g, din, avail, {}, tr);
      avail' := ParamsFlow(params[1..], i + 1, GenParam(params[0], i, g), din, avail + {g.regs + 1}, tr);
    }
  }

  predicate HeardFunction(f: FunctionDecl, rules: Rules) {
    (f.body.Some? ==> HeardStmt(f.body.value, rules)) && rules.params == 2 * |f.params|
  }

  // A certificate exists for every function that can be traced.
  lemma FunctionFlow(f: FunctionDecl, rules: Rules) returns (din: Arrivals)
    requires TracedFunction(f) && HeardFunction(f, rules)
    ensures Chain(GenFunction(f), din, rules) && ENTRY in din && din[ENTRY] == {}
    ensures TopIn(GenFunction(f)) == GenBody(f).regs
  {
    BlocksAreClosed(f);
    var tr := Tracking(rules);
    din := map[ENTRY := {}];
    StartFlow(rules);
    var avail := ParamsFlow(f.params, 0, EMPTY, din, {}, tr);
    var g := GenParams(f.params, 0, EMPTY);
    if f.body.Some? {
      var din1 := StmtFlow(f.body.value, g, din, avail, {}, tr);
      avail := AvailAfter(f.body.value, g, avail);
      din := din1;
    }
    assert Flow(GenBody(f), din, avail, rules);
    EndFlow(GenBody(f), din, avail, rules);
  }

  lemma StartFlow(rules: Rules)
    ensures Flow(EMPTY, map[ENTRY := {}], {}, rules)
  {
    LabelNumberOfEntry();
  }

  lemma EndFlow(b: Gen, din: Arrivals, avail: set<RegID>, rules: Rules)
    requires Flow(b, din, avail, rules)
    ensures var code := EmitRet(b, NO_REG).Blocks();
            Chain(code, din, rules) && TopIn(code) == b.regs
  {
    var i := Instr(Opcode.Ret, NO_REG, [], "");
    var h := Append(b, i);
    AppendSplits(b, i);
    assert h.Blocks()[..|b.done|] == b.done && h.Blocks()[|b.done|] == BasicBlock(b.here, h.code);
    forall j | j in h.code ensures EdgesFit(j, din[b.here] + Given(h.code, rules.silent), din) {
      if j != i {
        assert j in b.code && !IsTerminator(j);
      }
    }
  }
}
