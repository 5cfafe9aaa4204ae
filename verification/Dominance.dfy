// Every path from the entry to a use of a register passes its assignment.
module Dominance {
  import opened Ast
  import opened Ir
  import opened Labels
  import opened Codegen
  import CodegenFrame
  import opened Cfg
  import opened CfgNames
  import opened Traceable
  import opened Dataflow
  import opened Numbering

  lemma {:induction false} ChainAt(blocks: seq<BasicBlock>, din: Arrivals, rules: Rules, b: nat)
    requires Chain(blocks, din, rules) && b < |blocks|
    ensures BlockFits(blocks[b], TopIn(blocks[..b]), GivenIn(blocks[..b], rules.silent), din, rules)
    decreases |blocks|
  {
    var init := blocks[..|blocks| - 1];
    if b < |blocks| - 1 {
      ChainAt(init, din, rules, b);
      assert init[b] == blocks[b] && init[..b] == blocks[..b];
    } else {
      assert blocks[..b] == init;
    }
  }

  lemma {:induction false} InOrderAt(code: seq<Instr>, n: nat, avail: set<RegID>, rules: Rules, i: nat)
    requires InOrder(code, n, avail, rules) && i < |code|
    ensures Fits(code[i], Top(code[..i], n), avail + Given(code[..i], rules.silent), rules)
    decreases |code|
  {
    var init := code[..|code| - 1];
    if i < |code| - 1 {
      InOrderAt(init, n, avail, rules, i);
      assert init[i] == code[i] && init[..i] == code[..i];
    } else {
      assert code[..i] == init;
    }
  }

  // With every call giving a value, any body can be tracked.

  lemma {:induction false} HeardAlways(e: Expr, rules: Rules)
    requires Lenient(rules)
    ensures Heard(e, rules)
    decreases e, 0
  {
    match e
    case Binary(_, l, r) => HeardAlways(l, rules); HeardAlways(r, rules);
    case Unary(_, x) => HeardAlways(x, rules);
    case AssignExpr(_, target, value) => HeardAlways(target, rules); HeardAlways(value, rules);
    case Call(callee, args) => HeardAlways(callee, rules); HeardAlwaysIn(args, rules);
    case Index(base, index) => HeardAlways(base, rules); HeardAlways(index, rules);
    case Member(obj, _) => HeardAlways(obj, rules);
    case Cast(x, _) => HeardAlways(x, rules);
    case ArrayLit(es) => HeardAlwaysIn(es, rules);
    case _ =>
  }

  lemma {:induction false} HeardAlwaysIn(es: seq<Expr>, rules: Rules)
    requires Lenient(rules)
    ensures HeardIn(es, rules)
    decreases es, 0
  {
    if es != [] {
      HeardAlways(es[0], rules);
      HeardAlwaysIn(es[1..], rules);
    }
  }

  lemma {:induction false} HeardStmtAlways(s: Stmt, rules: Rules)
    requires Lenient(rules)
    ensures HeardStmt(s, rules)
    decreases s, 0
  {
    match s
    case Block(ss) => HeardStmtsAlways(ss, rules);
    case ExprStmt(e) =>
      HeardAlways(e, rules);
    case VarDecl(_, _, init) =>
      if init.Some? {
        HeardAlways(init.value, rules);
      }
    case Return(result) =>
      if result.Some? {
        HeardAlways(result.value, rules);
      }
    case If(c, t, other) =>
      HeardAlways(c, rules);
      HeardStmtAlways(t, rules);
      if other.Some? {
        HeardStmtAlways(other.value, rules);
      }
    case While(c, body) => HeardAlways(c, rules); HeardStmtAlways(body, rules);
    case Vloop(c, body) => HeardAlways(c, rules); HeardStmtAlways(body, rules);
    case For(_, iterable, body) => HeardAlways(iterable, rules); HeardStmtAlways(body, rules);
    case Match(subject, arms) => HeardAlways(subject, rules); HeardArmsAlways(arms, rules);
    case _ =>
  }

  lemma {:induction false} HeardStmtsAlways(ss: seq<Stmt>, rules: Rules)
    requires Lenient(rules)
    ensures HeardStmts(ss, rules)
    decreases ss, 0
  {
    if ss != [] {
      HeardStmtAlways(ss[0], rules);
      HeardStmtsAlways(ss[1..], rules);
    }
  }

  lemma {:induction false} HeardArmsAlways(arms: seq<MatchArm>, rules: Rules)
    requires Lenient(rules)
    ensures HeardArms(arms, rules)
    decreases arms, 0
  {
    if arms != [] {
      assert (arms decreases to arms[0]) && (arms[0] decreases to arms[0].body);
      HeardStmtAlways(arms[0].body, rules);
      if arms[0].pattern.Some? {
        HeardAlways(arms[0].pattern.value, rules);
      }
      HeardArmsAlways(arms[1..], rules);
    }
  }

  lemma Certified(f: FunctionDecl) returns (din: Arrivals, rules: Rules)
    requires TracedFunction(f)
    ensures rules.silent == {} && Chain(GenFunction(f), din, rules) && ENTRY in din && din[ENTRY] == {}
    ensures TopIn(GenFunction(f)) == GenBody(f).regs
  {
    rules := Rules({}, {}, 2 * |f.params|, true);
    if f.body.Some? {
      HeardStmtAlways(f.body.value, rules);
    }
    din := FunctionFlow(f, rules);
  }

  // A walk along branches from the entry block.
  ghost predicate Path(code: seq<BasicBlock>, p: seq<nat>) {
    && p != [] && p[0] == 0
    && (forall k :: 0 <= k < |p| ==> p[k] < |code|)
    && forall k :: 0 < k < |p| ==> Leads(code, p[k - 1], p[k])
  }

  ghost predicate AssignedOn(code: seq<BasicBlock>, p: seq<nat>, r: RegID) {
    exists k, i :: 0 <= k < |p| && Assigns(code, p[k], i, r)
  }

  ghost predicate AssignedBefore(code: seq<BasicBlock>, b: nat, j: nat, r: RegID) {
    exists i: nat :: Assigns(code, b, i, r) && i < j
  }

  lemma {:induction false} GivenBy(code: seq<Instr>, silent: set<string>, r: RegID) returns (i: nat)
    requires r in Given(code, silent)
    ensures i < |code| && r != NO_REG && code[i].dest == r
    decreases |code|
  {
    var init := code[..|code| - 1];
    if r in Given(init, silent) {
      i := GivenBy(init, silent, r);
      assert init[i] == code[i];
    } else {
      i := |init|;
    }
  }

  // The certificate is sound: what it lists for a block has been assigned on the way.
  lemma {:induction false} Arrived(code: seq<BasicBlock>, din: Arrivals, rules: Rules, p: seq<nat>, r: RegID)
    requires Chain(code, din, rules) && Path(code, p) && code[0].name in din && din[code[0].name] == {}
    requires code[p[|p| - 1]].name in din && r in din[code[p[|p| - 1]].name]
    ensures AssignedOn(code, p[..|p| - 1], r)
    decreases |p|
  {
    if |p| > 1 {
      var q := p[..|p| - 1];
      var a := q[|q| - 1];
      ChainAt(code, din, rules, a);
      assert Leads(code, a, p[|p| - 1]);
      if r in din[code[a].name] {
        Arrived(code, din, rules, q, r);
        var k, i :| 0 <= k < |q| - 1 && Assigns(code, q[..|q| - 1][k], i, r);
        assert Assigns(code, q[k], i, r);
      } else {
        var i := GivenBy(code[a].instrs, rules.silent, r);
        assert Assigns(code, q[|q| - 1], i, r);
      }
    }
  }

  // On every path from the entry to an instruction, each register it uses has been
  // assigned: in an earlier block of the path, or earlier in the block itself.
  lemma DefinitionDominatesUse(f: FunctionDecl, p: seq<nat>, j: nat, r: RegID)
    requires TracedFunction(f) && Path(GenFunction(f), p)
    requires j < |GenFunction(f)[p[|p| - 1]].instrs| && Reg(r) in GenFunction(f)[p[|p| - 1]].instrs[j].operands
    ensures AssignedOn(GenFunction(f), p[..|p| - 1], r) || AssignedBefore(GenFunction(f), p[|p| - 1], j, r)
  {
    var code := GenFunction(f);
    var b := p[|p| - 1];
    var instrs := code[b].instrs;
    var din, rules := Certified(f);
    EntryFirst(f);
    ChainAt(code, din, rules, b);
    InOrderAt(instrs, TopIn(code[..b]), din[code[b].name], rules, j);
    if r in din[code[b].name] {
      Arrived(code, din, rules, p, r);
    } else {
      var i := GivenBy(instrs[..j], rules.silent, r);
      assert Assigns(code, b, i, r);
    }
  }

  lemma EntryFirst(f: FunctionDecl)
    ensures GenFunction(f)[0].name == ENTRY
  {
    BlocksAreClosed(f);
    ParamsPlain(f.params, 0, EMPTY);
    var g := GenParams(f.params, 0, EMPTY);
    if f.body.Some? {
      CodegenFrame.StmtVisits(f.body.value, g);
      assert CodegenFrame.Extends(g, GenBody(f).Blocks());
    }
    assert GenFunction(f)[0].name == GenBody(f).Blocks()[0].name;
  }
}
