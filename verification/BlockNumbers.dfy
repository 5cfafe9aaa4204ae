// The numbers of block labels: in a body whose matches are closed no number is used twice,
// and the only branches that go back are those to the condition of a loop.
module BlockNumbers {
  import opened Common
  import opened Ast
  import opened Ir
  import opened Labels
  import opened Codegen
  import opened CodegenFrame
  import opened Cfg

  // Every match that is lowered has no arms or a wildcard arm. Arms after the first
  // wildcard are never lowered, so nothing is asked of them.
  predicate ClosedMatches(s: Stmt)
    decreases s, 0
  {
    match s
    case Block(ss) => ClosedMatchesIn(ss)
    case If(_, t, None) => ClosedMatches(t)
    case If(_, t, Some(f)) => ClosedMatches(t) && ClosedMatches(f)
    case While(_, body) => ClosedMatches(body)
    case Vloop(_, body) => ClosedMatches(body)
    case For(_, _, body) => ClosedMatches(body)
    case Match(_, arms) => arms == [] || ClosedArms(arms)
    case _ => true
  }

  predicate ClosedMatchesIn(ss: seq<Stmt>)
    decreases ss, 0
  {
    ss == [] || (ClosedMatches(ss[0]) && ClosedMatchesIn(ss[1..]))
  }

  predicate ClosedArms(arms: seq<MatchArm>)
    decreases arms, 0
  {
    arms != [] &&
    (assert (arms decreases to arms[0]) && (arms[0] decreases to arms[0].body);
     ClosedMatches(arms[0].body)) &&
    (arms[0].pattern.None? || ClosedArms(arms[1..]))
  }

  // No loop is lowered.
  predicate LoopFree(s: Stmt)
    decreases s, 0
  {
    match s
    case Block(ss) => LoopFreeIn(ss)
    case If(_, t, None) => LoopFree(t)
    case If(_, t, Some(f)) => LoopFree(t) && LoopFree(f)
    case While(_, _) => false
    case Vloop(_, _) => false
    case For(_, _, _) => false
    case Match(_, arms) => LoopFreeArms(arms)
    case _ => true
  }

  predicate LoopFreeIn(ss: seq<Stmt>)
    decreases ss, 0
  {
    ss == [] || (LoopFree(ss[0]) && LoopFreeIn(ss[1..]))
  }

  predicate LoopFreeArms(arms: seq<MatchArm>)
    decreases arms, 0
  {
    arms == [] ||
    ((assert (arms decreases to arms[0]) && (arms[0] decreases to arms[0].body);
      LoopFree(arms[0].body)) &&
     (arms[0].pattern.None? || LoopFreeArms(arms[1..])))
  }

  // The label of a block that tests the condition of a loop.
  ghost predicate IsLoopHead(name: string) {
    exists k, n: nat :: k in {WhileCond, VloopCond, ForCond} && name == MakeLabel(k, n)
  }

  // Without loops no branch goes back.
  ghost predicate MayReturnTo(loops: bool, name: string) {
    loops && IsLoopHead(name)
  }

  // A branch from block k to a block that is not behind it goes to the head of a loop.
  ghost predicate GoesForward(blocks: seq<BasicBlock>, loops: bool) {
    forall j, k, x, t :: 0 <= j <= k < |blocks| && x in blocks[k].instrs && t in Targets(x) && blocks[j].name == t ==>
      MayReturnTo(loops, t)
  }

  lemma BackBranch(blocks: seq<BasicBlock>, loops: bool, j: nat, k: nat, x: Instr)
    requires GoesForward(blocks, loops) && j <= k < |blocks| && x in blocks[k].instrs && blocks[j].name in Targets(x)
    ensures MayReturnTo(loops, blocks[j].name)
  {
    var t := blocks[j].name;
    assert t in Targets(x);
  }

  function Numbers(g: Gen): seq<int> {
    seq(|g.done|, i requires 0 <= i < |g.done| => LabelNumber(g.done[i].name)) + [LabelNumber(g.here)]
  }

  // The label numbers in use are pairwise different, below the counter and outside
  // `reserved`, the numbers handed out for blocks still to come.
  ghost predicate Fresh(ns: seq<int>, counter: nat, reserved: set<int>) {
    && (forall i :: 0 <= i < |ns| ==> ns[i] < counter && ns[i] !in reserved)
    && (forall i, j :: 0 <= i < j < |ns| ==> ns[i] != ns[j])
    && (forall r :: r in reserved ==> r < counter)
  }

  ghost predicate Distinct(g: Gen, reserved: set<int>, loops: bool) {
    Fresh(Numbers(g), g.labels, reserved) && GoesForward(g.done, loops) && NoTerminator(g.code)
  }

  // The invariant as a value, so that the lemmas about statements can pass it along.
  datatype Planner = Planner(loops: bool, ghost holds: (Gen, set<int>) -> bool)

  ghost predicate Follows(p: Planner) {
    forall g, reserved {:trigger Distinct(g, reserved, p.loops)} ::
      p.holds(g, reserved) == Distinct(g, reserved, p.loops)
  }

  ghost function Planning(loops: bool): (p: Planner)
    ensures p.loops == loops && Follows(p)
  {
    Planner(loops, (g, reserved) => Distinct(g, reserved, loops))
  }

  type Plan = p: Planner | Follows(p) ghost witness Planning(true)

  // The statements a plan is for.
  predicate Planned(p: Planner, s: Stmt) {
    ClosedMatches(s) && (p.loops || LoopFree(s))
  }

  lemma PlanPlain(p: Plan, g: Gen, h: Gen, reserved: set<int>)
    requires p.holds(g, reserved) && Plain(g, h)
    ensures p.holds(h, reserved)
  {
    assert Distinct(g, reserved, p.loops);
    assert Numbers(h) == Numbers(g);
    forall i | 0 <= i < |h.code| ensures !IsTerminator(h.code[i]) {
      if i < |g.code| {
        assert h.code[i] == g.code[i];
      }
    }
    assert Distinct(h, reserved, p.loops);
  }

  lemma PlanExpr(p: Plan, e: Expr, g: Gen, reserved: set<int>)
    requires p.holds(g, reserved)
    ensures p.holds(GenExpr(e, g).g, reserved) && GenExpr(e, g).g.labels == g.labels
  {
    ExprPlain(e, g);
    PlanPlain(p, g, GenExpr(e, g).g, reserved);
  }

  lemma PlanBind(p: Plan, g: Gen, x: string, r: RegID, reserved: set<int>)
    requires p.holds(g, reserved)
    ensures p.holds(Bind(g, x, r), reserved)
  {
    assert Distinct(g, reserved, p.loops) && Numbers(Bind(g, x, r)) == Numbers(g);
    assert Distinct(Bind(g, x, r), reserved, p.loops);
  }

  lemma PlanTake(p: Plan, g: Gen, k: nat, reserved: set<int>, more: set<int>)
    requires p.holds(g, reserved)
    requires forall r :: r in more ==> r in reserved || g.labels <= r < g.labels + k
    ensures p.holds(TakeLabels(g, k), more)
  {
    assert Distinct(g, reserved, p.loops) && Numbers(TakeLabels(g, k)) == Numbers(g);
    assert Distinct(TakeLabels(g, k), more, p.loops);
  }

  // Targets that are loop heads or still to come.
  ghost predicate Aims(loops: bool, targets: set<string>, reserved: set<int>) {
    forall t :: t in targets ==> MayReturnTo(loops, t) || LabelNumber(t) in reserved
  }

  lemma ForwardOneMore(loops: bool, g: Gen, i: Instr, numbers: set<int>)
    requires Distinct(g, numbers, loops) && Aims(loops, Targets(i), numbers)
    ensures GoesForward(Append(g, i).Blocks(), loops)
  {
    var blocks := Append(g, i).Blocks();
    assert blocks[..|g.done|] == g.done;
    forall j, k, x, t | 0 <= j <= k < |blocks| && x in blocks[k].instrs && t in Targets(x) && blocks[j].name == t
      ensures MayReturnTo(loops, t)
    {
      if k < |g.done| {
        assert blocks[k] == g.done[k] && blocks[j] == g.done[j];
      } else {
        assert x == i by { assert x in g.code + [i]; }
        assert LabelNumber(t) == Numbers(g)[j];
      }
    }
  }

  // A terminator, then the next block, which takes its number out of the reserved ones.
  lemma PlanJump(p: Plan, g: Gen, i: Instr, name: string, n: int, reserved: set<int>)
    requires p.holds(g, reserved + {n}) && n !in reserved && LabelNumber(name) == n
    requires Aims(p.loops, Targets(i), reserved + {n})
    ensures p.holds(StartBlock(Append(g, i), name), reserved)
  {
    var k := StartBlock(Append(g, i), name);
    assert Distinct(g, reserved + {n}, p.loops);
    ForwardOneMore(p.loops, g, i, reserved + {n});
    assert Numbers(k) == Numbers(g) + [n] by {
      assert k.done[..|g.done|] == g.done;
    }
    assert Distinct(k, reserved, p.loops);
  }

  lemma PlanBranch(p: Plan, g: Gen, target: string, name: string, n: int, reserved: set<int>)
    requires p.holds(g, reserved + {n}) && n !in reserved && LabelNumber(name) == n
    requires Aims(p.loops, {target}, reserved + {n})
    ensures p.holds(StartBlock(EmitBranch(g, target), name), reserved)
    ensures p.holds(Close(g, target, name), reserved)
  {
    assert Distinct(g, reserved + {n}, p.loops);
    PlanJump(p, g, Instr(Branch, NO_REG, [], target), name, n, reserved);
  }

  lemma PlanTest(p: Plan, g: Gen, r: RegID, t: string, f: string, n: int, reserved: set<int>)
    requires p.holds(g, reserved + {n}) && n !in reserved && LabelNumber(t) == n && ',' !in t
    requires Aims(p.loops, {f}, reserved + {n})
    ensures p.holds(StartBlock(EmitCondBranch(g, r, t, f), t), reserved)
  {
    SplitJoin(t, f);
    PlanJump(p, g, Instr(CondBranch, NO_REG, [Reg(r)], JoinTargets(t, f)), t, n, reserved);
  }

  // What is used of a fresh label.
  lemma FreshLabel(k: LabelKind, n: nat, name: string)
    requires name == MakeLabel(k, n)
    ensures LabelNumber(name) == n && ',' !in name
    ensures k in {WhileCond, VloopCond, ForCond} ==> IsLoopHead(name)
  {
    LabelNumberOfLabel(k, n);
    LabelHasNoComma(k, n);
  }

  // The labels an if statement still has to place.
  function IfRest(hasElse: bool, n: nat, reserved: set<int>): set<int> {
    if hasElse then reserved + {n + 2} + {n + 1} else reserved + {n + 1}
  }

  lemma PlanThen(p: Plan, c: Expr, hasElse: bool, g: Gen, n: nat, reserved: set<int>)
    requires p.holds(g, reserved) && n == g.labels
    ensures IfLabels(c, g) == n
    ensures p.holds(ThenHead(c, hasElse, g), IfRest(hasElse, n, reserved))
  {
    var t, f := MakeLabel(Then, n), MakeLabel(if hasElse then Else else Merge, n + 1);
    PlanExpr(p, c, g, reserved);
    FreshLabel(Then, n, t);
    FreshLabel(if hasElse then Else else Merge, n + 1, f);
    PlanThenTest(p, GenExpr(c, g), hasElse, t, f, n, reserved);
    ThenIs(c, hasElse, g, n, t, f);
  }

  lemma PlanThenTest(p: Plan, x: ExprGen, hasElse: bool, t: string, f: string, n: nat, reserved: set<int>)
    requires p.holds(x.g, reserved) && n == x.g.labels && ',' !in t
    requires LabelNumber(t) == n && LabelNumber(f) == n + 1
    ensures p.holds(StartBlock(EmitCondBranch(TakeLabels(x.g, if hasElse then 3 else 2), x.reg, t, f), t),
                    IfRest(hasElse, n, reserved))
  {
    var k, later := if hasElse then 3 else 2, IfRest(hasElse, n, reserved);
    assert forall r :: r in reserved ==> r < n by { assert Distinct(x.g, reserved, p.loops); }
    PlanTake(p, x.g, k, reserved, later + {n});
    PlanTest(p, TakeLabels(x.g, k), x.reg, t, f, n, later);
  }

  lemma PlanLoopHead(p: Plan, c: Expr, cond: string, bodyName: string, exit: string, g: Gen, n: nat, reserved: set<int>)
    requires p.holds(g, reserved) && n == g.labels && ',' !in bodyName
    requires LabelNumber(cond) == n && LabelNumber(bodyName) == n + 1 && LabelNumber(exit) == n + 2
    ensures p.holds(LoopHead(c, cond, bodyName, exit, g), reserved + {n + 2})
  {
    var at := TakeLabels(g, 3);
    var atCond := StartBlock(EmitBranch(at, cond), cond);
    var x := GenExpr(c, atCond);
    BelowCounter(p, g, reserved, n);
    PlanTake(p, g, 3, reserved, reserved + {n + 2} + {n + 1} + {n});
    PlanBranch(p, at, cond, cond, n, reserved + {n + 2} + {n + 1});
    PlanExpr(p, c, atCond, reserved + {n + 2} + {n + 1});
    PlanTest(p, x.g, x.reg, bodyName, exit, n + 1, reserved + {n + 2});
  }

  lemma PlanCounterHead(p: Plan, limit: int, slot: RegID, cond: string, bodyName: string, exit: string, n: int, g: Gen,
                        reserved: set<int>)
    requires p.holds(g, reserved + {n + 1} + {n}) && n !in reserved && n + 1 !in reserved && ',' !in bodyName
    requires LabelNumber(cond) == n && LabelNumber(bodyName) == n + 1 && LabelNumber(exit) in reserved
    ensures p.holds(CounterHead(limit, slot, cond, bodyName, exit, g), reserved)
  {
    var atCond := StartBlock(EmitBranch(g, cond), cond);
    var cur := Build(atCond, Load, [Reg(slot)], "");
    var lim := Build(cur.g, Copy, [IntImm(limit)], "");
    var cmp := Build(lim.g, CmpLt, [Reg(cur.reg), Reg(lim.reg)], "");
    PlanBranch(p, g, cond, cond, n, reserved + {n + 1});
    PlanPlain(p, atCond, cmp.g, reserved + {n + 1});
    PlanTest(p, cmp.g, cmp.reg, bodyName, exit, n + 1, reserved);
  }

  lemma PlanCounterStep(p: Plan, slot: RegID, cond: string, exit: string, n: int, g: Gen, reserved: set<int>)
    requires p.holds(g, reserved + {n}) && n !in reserved && LabelNumber(exit) == n && p.loops && IsLoopHead(cond)
    ensures p.holds(CounterStep(slot, cond, exit, g), reserved)
  {
    var cur := Build(g, Load, [Reg(slot)], "");
    var one := Build(cur.g, Copy, [IntImm(1)], "");
    var inc := Build(one.g, Opcode.Add, [Reg(cur.reg), Reg(one.reg)], "");
    var kept := EmitStore(inc.g, inc.reg, slot);
    assert !IsTerminated(g.code) by { assert Distinct(g, reserved + {n}, p.loops); }
    PlanPlain(p, g, kept, reserved + {n});
    PlanBranch(p, kept, cond, exit, n, reserved);
  }

  lemma PlanForInit(p: Plan, x: string, iterable: Expr, g: Gen, reserved: set<int>)
    requires p.holds(g, reserved)
    ensures p.holds(ForInit(x, iterable, g).g, reserved) && ForInit(x, iterable, g).g.labels == g.labels
  {
    var slot := Build(g, Alloca, [], x);
    var bound := Bind(slot.g, x, slot.reg);
    PlanPlain(p, g, slot.g, reserved);
    PlanBind(p, slot.g, x, slot.reg, reserved);
    PlanExpr(p, iterable, bound, reserved);
    PlanPlain(p, GenExpr(iterable, bound).g, ForInit(x, iterable, g).g, reserved);
  }

  lemma PlanForTest(p: Plan, iter: RegID, cond: string, bodyName: string, exit: string, g: Gen, n: nat,
                    reserved: set<int>)
    requires p.holds(g, reserved) && n == g.labels && ',' !in bodyName
    requires LabelNumber(cond) == n && LabelNumber(bodyName) == n + 1 && LabelNumber(exit) == n + 2
    ensures p.holds(ForTest(iter, cond, bodyName, exit, g), reserved + {n + 2})
  {
    var at := TakeLabels(g, 3);
    var atCond := StartBlock(EmitBranch(at, cond), cond);
    var cur := Build(atCond, Load, [Reg(iter)], "");
    BelowCounter(p, g, reserved, n);
    PlanTake(p, g, 3, reserved, reserved + {n + 2} + {n + 1} + {n});
    PlanBranch(p, at, cond, cond, n, reserved + {n + 2} + {n + 1});
    PlanPlain(p, atCond, cur.g, reserved + {n + 2} + {n + 1});
    PlanTest(p, cur.g, cur.reg, bodyName, exit, n + 1, reserved + {n + 2});
  }

  lemma PlanArmHead(p: Plan, pattern: Option<Expr>, subject: RegID, bodyName: string, nextName: string, g: Gen, n: int,
                    reserved: set<int>)
    requires p.holds(g, reserved + {n}) && n !in reserved && LabelNumber(bodyName) == n && ',' !in bodyName
    requires pattern.Some? ==> LabelNumber(nextName) in reserved
    ensures p.holds(ArmHead(pattern, subject, bodyName, nextName, g), reserved)
  {
    match pattern
    case None => PlanBranch(p, g, bodyName, bodyName, n, reserved);
    case Some(e) =>
      var x := GenExpr(e, g);
      var cmp := Build(x.g, CmpEq, [Reg(subject), Reg(x.reg)], "");
      PlanExpr(p, e, g, reserved + {n});
      PlanPlain(p, x.g, cmp.g, reserved + {n});
      PlanTest(p, cmp.g, cmp.reg, bodyName, nextName, n, reserved);
  }

  lemma PlanReturn(p: Plan, result: Option<Expr>, g: Gen, reserved: set<int>)
    requires p.holds(g, reserved)
    ensures p.holds(GenReturn(result, g), reserved)
  {
    var a := if result.Some? then GenExpr(result.value, g) else ExprGen(g, NO_REG);
    var n := g.labels;
    var name := MakeLabel(AfterRet, n);
    if result.Some? {
      PlanExpr(p, result.value, g, reserved);
    }
    BelowCounter(p, g, reserved, n);
    FreshLabel(AfterRet, n, name);
    PlanTake(p, a.g, 1, reserved, reserved + {n});
    var i := Instr(Ret, NO_REG, if a.reg == NO_REG then [] else [Reg(a.reg)], "");
    PlanJump(p, TakeLabels(a.g, 1), i, name, n, reserved);
    assert GenReturn(result, g) == StartBlock(Append(TakeLabels(a.g, 1), i), name);
  }

  lemma PlanVarDecl(p: Plan, x: string, init: Option<Expr>, g: Gen, reserved: set<int>)
    requires p.holds(g, reserved)
    ensures p.holds(GenVarDecl(x, init, g), reserved)
  {
    var slot := Build(g, Alloca, [], x);
    var bound := Bind(slot.g, x, slot.reg);
    PlanPlain(p, g, slot.g, reserved);
    PlanBind(p, slot.g, x, slot.reg, reserved);
    if init.Some? {
      var a := GenExpr(init.value, bound);
      PlanExpr(p, init.value, bound, reserved);
      PlanPlain(p, a.g, EmitStore(a.g, a.reg, slot.reg), reserved);
    }
  }

  // Reserved numbers have been taken.
  lemma BelowCounter(p: Plan, g: Gen, reserved: set<int>, n: nat)
    requires p.holds(g, reserved) && n == g.labels
    ensures forall r :: r in reserved ==> r < n
  {
    assert Distinct(g, reserved, p.loops);
  }

  lemma {:induction false} PlanStmt(p: Plan, s: Stmt, g: Gen, reserved: set<int>)
    requires Planned(p, s) && p.holds(g, reserved)
    ensures p.holds(GenStmt(s, g), reserved)
    decreases s, 3
  {
    match s
    case Block(ss) => PlanStmts(p, ss, g, reserved);
    case ExprStmt(e) => PlanExpr(p, e, g, reserved);
    case VarDecl(_, x, init) => PlanVarDecl(p, x, init, g, reserved);
    case Return(result) => PlanReturn(p, result, g, reserved);
    case If(_, _, _) => PlanIf(p, s, g, reserved);
    case While(c, body) => PlanLoop(p, c, body, WHILE_LABELS, g, reserved);
    case Vloop(c, body) =>
      if c.IntLit? {
        PlanCounted(p, s, g, reserved);
      } else {
        PlanLoop(p, c, body, VLOOP_LABELS, g, reserved);
      }
    case For(_, _, _) => PlanFor(p, s, g, reserved);
    case Break =>
    case Continue =>
    case Match(_, _) => PlanMatch(p, s, g, reserved);
  }

  // A branch to a loop head or to a block still to come, and the block after it.
  lemma {:induction false} PlanBody(p: Plan, t: Stmt, at: Gen, target: string, name: string, n: int, reserved: set<int>)
    requires Planned(p, t) && p.holds(at, reserved + {n}) && n !in reserved && LabelNumber(name) == n
    requires Aims(p.loops, {target}, reserved + {n})
    ensures p.holds(Close(GenStmt(t, at), target, name), reserved)
    decreases t, 4
  {
    PlanStmt(p, t, at, reserved + {n});
    PlanBranch(p, GenStmt(t, at), target, name, n, reserved);
  }

  lemma {:induction false} PlanIf(p: Plan, s: Stmt, g: Gen, reserved: set<int>)
    requires s.If? && Planned(p, s) && p.holds(g, reserved)
    ensures p.holds(GenStmt(s, g), reserved)
    decreases s, 2
  {
    var n := g.labels;
    BelowCounter(p, g, reserved, n);
    PlanThen(p, s.cond, s.elseBranch.Some?, g, n, reserved);
    match s.elseBranch
    case None =>
      var merge := MakeLabel(Merge, n + 1);
      FreshLabel(Merge, n + 1, merge);
      PlanBody(p, s.thenBranch, ThenHead(s.cond, false, g), merge, merge, n + 1, reserved);
      IfIs(s, g, n, merge);
    case Some(f) => PlanIfElse(p, s, f, g, n, MakeLabel(Else, n + 1), MakeLabel(Merge, n + 2), reserved);
  }

  lemma {:induction false} PlanIfElse(p: Plan, s: Stmt, f: Stmt, g: Gen, n: nat, other: string, merge: string,
                                      reserved: set<int>)
    requires s.If? && s.elseBranch == Some(f) && Planned(p, s) && n == IfLabels(s.cond, g)
    requires other == MakeLabel(Else, n + 1) && merge == MakeLabel(Merge, n + 2)
    requires p.holds(ThenHead(s.cond, true, g), reserved + {n + 2} + {n + 1}) && forall r :: r in reserved ==> r < n
    ensures p.holds(GenStmt(s, g), reserved)
    decreases s, 1
  {
    FreshLabel(Else, n + 1, other);
    FreshLabel(Merge, n + 2, merge);
    PlanBranches(p, s, f, ThenHead(s.cond, true, g), other, n + 1, merge, n + 2, reserved);
    IfElseIs(s, f, g, n, other, merge);
  }

  lemma {:induction false} PlanBranches(p: Plan, s: Stmt, f: Stmt, at: Gen, other: string, a: int, merge: string,
                                        b: int,
                                        reserved: set<int>)
    requires s.If? && s.elseBranch == Some(f) && Planned(p, s) && p.holds(at, reserved + {b} + {a})
    requires LabelNumber(other) == a && LabelNumber(merge) == b && a != b && a !in reserved && b !in reserved
    ensures p.holds(Close(GenStmt(f, Close(GenStmt(s.thenBranch, at), merge, other)), merge, merge), reserved)
    decreases s, 0
  {
    var atElse := Close(GenStmt(s.thenBranch, at), merge, other);
    PlanBody(p, s.thenBranch, at, merge, other, a, reserved + {b});
    PlanBody(p, f, atElse, merge, merge, b, reserved);
  }

  lemma {:induction false} PlanLoop(p: Plan, c: Expr, body: Stmt, ls: LoopLabels, g: Gen, reserved: set<int>)
    requires Planned(p, body) && p.loops && p.holds(g, reserved) && ls.cond in {WhileCond, VloopCond}
    ensures p.holds(GenLoop(c, body, ls, g), reserved)
    decreases body, 6
  {
    var n := g.labels;
    var cond, bodyName, exit := MakeLabel(ls.cond, n), MakeLabel(ls.body, n + 1), MakeLabel(ls.exit, n + 2);
    FreshLabel(ls.cond, n, cond);
    FreshLabel(ls.body, n + 1, bodyName);
    FreshLabel(ls.exit, n + 2, exit);
    PlanLoopNamed(p, c, body, cond, bodyName, exit, g, n, reserved);
    LoopIs(c, body, ls, g, cond, bodyName, exit);
  }

  lemma {:induction false} PlanLoopNamed(p: Plan, c: Expr, body: Stmt, cond: string, bodyName: string, exit: string,
                                         g: Gen, n: nat, reserved: set<int>)
    requires Planned(p, body) && p.loops && p.holds(g, reserved) && n == g.labels
    requires LabelNumber(cond) == n && LabelNumber(bodyName) == n + 1 && LabelNumber(exit) == n + 2
    requires IsLoopHead(cond) && ',' !in bodyName
    ensures p.holds(Close(GenStmt(body, LoopHead(c, cond, bodyName, exit, g)), cond, exit), reserved)
    decreases body, 5
  {
    BelowCounter(p, g, reserved, n);
    PlanLoopHead(p, c, cond, bodyName, exit, g, n, reserved);
    PlanBody(p, body, LoopHead(c, cond, bodyName, exit, g), cond, exit, n + 2, reserved);
  }

  lemma {:induction false} PlanCounted(p: Plan, s: Stmt, g: Gen, reserved: set<int>)
    requires s.Vloop? && s.cond.IntLit? && Planned(p, s) && p.holds(g, reserved)
    ensures p.holds(GenStmt(s, g), reserved)
    decreases s, 1
  {
    var n, init := g.labels, CounterInit(g);
    var cond, bodyName, exit := MakeLabel(VloopCond, n + 1), MakeLabel(VloopBody, n + 2), MakeLabel(VloopExit, n + 3);
    FreshLabel(VloopCond, n + 1, cond);
    FreshLabel(VloopBody, n + 2, bodyName);
    FreshLabel(VloopExit, n + 3, exit);
    PlanCounterInit(p, g, n, reserved);
    PlanCountedBody(p, s.cond.value, s.body, init.reg, cond, bodyName, exit, n + 1, init.g, reserved);
    CountedIs(s, g, n, cond, bodyName, exit);
  }

  lemma PlanCounterInit(p: Plan, g: Gen, n: nat, reserved: set<int>)
    requires p.holds(g, reserved) && n == g.labels
    ensures p.holds(CounterInit(g).g, reserved + {n + 3} + {n + 2} + {n + 1}) && forall r :: r in reserved ==> r < n
  {
    var later := reserved + {n + 3} + {n + 2} + {n + 1};
    BelowCounter(p, g, reserved, n);
    PlanTake(p, g, 4, reserved, later);
    PlanPlain(p, TakeLabels(g, 4), CounterInit(g).g, later);
  }

  lemma {:induction false} PlanCountedBody(p: Plan, limit: int, body: Stmt, slot: RegID, cond: string, bodyName: string,
                                           exit: string, n: int, g: Gen, reserved: set<int>)
    requires Planned(p, body) && p.loops && p.holds(g, reserved + {n + 2} + {n + 1} + {n})
    requires n !in reserved && n + 1 !in reserved && n + 2 !in reserved && ',' !in bodyName && IsLoopHead(cond)
    requires LabelNumber(cond) == n && LabelNumber(bodyName) == n + 1 && LabelNumber(exit) == n + 2
    ensures p.holds(CounterStep(slot, cond, exit, GenStmt(body, CounterHead(limit, slot, cond, bodyName, exit, g))),
                    reserved)
    decreases body, 5
  {
    var at := CounterHead(limit, slot, cond, bodyName, exit, g);
    PlanCounterHead(p, limit, slot, cond, bodyName, exit, n, g, reserved + {n + 2});
    PlanStmt(p, body, at, reserved + {n + 2});
    PlanCounterStep(p, slot, cond, exit, n + 2, GenStmt(body, at), reserved);
  }

  lemma {:induction false} PlanFor(p: Plan, s: Stmt, g: Gen, reserved: set<int>)
    requires s.For? && Planned(p, s) && p.holds(g, reserved)
    ensures p.holds(GenStmt(s, g), reserved)
    decreases s, 1
  {
    var init := ForInit(s.variable, s.iterable, g);
    var n := init.g.labels;
    var cond, bodyName, exit := MakeLabel(ForCond, n), MakeLabel(ForBody, n + 1), MakeLabel(ForExit, n + 2);
    PlanForInit(p, s.variable, s.iterable, g, reserved);
    FreshLabel(ForCond, n, cond);
    FreshLabel(ForBody, n + 1, bodyName);
    FreshLabel(ForExit, n + 2, exit);
    PlanForNamed(p, s, init, cond, bodyName, exit, n, reserved);
    ForIs(s, g, init, n, cond, bodyName, exit);
  }

  lemma {:induction false} PlanForNamed(p: Plan, s: Stmt, init: ExprGen, cond: string, bodyName: string, exit: string,
                                        n: nat, reserved: set<int>)
    requires s.For? && Planned(p, s) && p.holds(init.g, reserved) && n == init.g.labels
    requires LabelNumber(cond) == n && LabelNumber(bodyName) == n + 1 && LabelNumber(exit) == n + 2
    requires IsLoopHead(cond) && ',' !in bodyName
    ensures p.holds(Close(GenStmt(s.body, ForTest(init.reg, cond, bodyName, exit, init.g)), cond, exit), reserved)
    decreases s, 0
  {
    BelowCounter(p, init.g, reserved, n);
    PlanForTest(p, init.reg, cond, bodyName, exit, init.g, n, reserved);
    PlanBody(p, s.body, ForTest(init.reg, cond, bodyName, exit, init.g), cond, exit, n + 2, reserved);
  }

  lemma {:induction false} PlanMatch(p: Plan, s: Stmt, g: Gen, reserved: set<int>)
    requires s.Match? && Planned(p, s) && p.holds(g, reserved)
    ensures p.holds(GenStmt(s, g), reserved)
    decreases s, 1
  {
    var x := GenExpr(s.subject, g);
    var n := g.labels;
    var exit := MakeLabel(MatchExit, n);
    PlanExpr(p, s.subject, g, reserved);
    BelowCounter(p, g, reserved, n);
    FreshLabel(MatchExit, n, exit);
    PlanTake(p, x.g, 1, reserved, reserved + {n});
    if s.arms == [] {
      PlanBranch(p, TakeLabels(x.g, 1), exit, exit, n, reserved);
    } else {
      PlanArms(p, s.arms, x.reg, exit, n, TakeLabels(x.g, 1), reserved);
    }
  }

  lemma {:induction false} PlanStmts(p: Plan, ss: seq<Stmt>, g: Gen, reserved: set<int>)
    requires ClosedMatchesIn(ss) && (p.loops || LoopFreeIn(ss)) && p.holds(g, reserved)
    ensures p.holds(GenStmts(ss, g), reserved)
    decreases ss, 0
  {
    if ss != [] {
      PlanStmt(p, ss[0], g, reserved);
      PlanStmts(p, ss[1..], GenStmt(ss[0], g), reserved);
    }
  }

  // The arms, and the exit block after them, whose number is m.
  lemma {:induction false} PlanArms(p: Plan, arms: seq<MatchArm>, subject: RegID, exit: string, m: int, g: Gen,
                                    reserved: set<int>)
    requires ClosedArms(arms) && (p.loops || LoopFreeArms(arms)) && p.holds(g, reserved + {m})
    requires m !in reserved && LabelNumber(exit) == m
    ensures p.holds(Close(GenArms(arms, subject, exit, g), exit, exit), reserved)
    decreases arms, 1
  {
    var n := g.labels;
    var bodyName, nextName := MakeLabel(ArmBody, n), NextArm(|arms| == 1, exit, g);
    BelowCounter(p, g, reserved + {m}, n);
    assert m in reserved + {m} && forall r :: r in reserved ==> r in reserved + {m};
    FreshLabel(ArmBody, n, bodyName);
    ArmsAre(arms, subject, exit, g, n, bodyName, nextName);
    if arms[0].pattern.None? {
      PlanLastArm(p, arms, subject, exit, m, bodyName, nextName, g, n, reserved);
    } else {
      FreshLabel(ArmNext, n + 1, nextName);
      PlanNextArm(p, arms, subject, exit, m, bodyName, nextName, g, n, reserved);
    }
  }

  lemma {:induction false} PlanLastArm(p: Plan, arms: seq<MatchArm>, subject: RegID, exit: string, m: int,
                                       bodyName: string,
                                       nextName: string, g: Gen, n: nat, reserved: set<int>)
    requires ClosedArms(arms) && (p.loops || LoopFreeArms(arms)) && arms[0].pattern.None? &&
      p.holds(g, reserved + {m}) && m !in reserved && n == g.labels
    requires LabelNumber(exit) == m && LabelNumber(bodyName) == n && ',' !in bodyName && m < n
    requires forall r :: r in reserved ==> r < n
    ensures var at := TakeLabels(g, if |arms| == 1 then 1 else 2);
            p.holds(Close(GenStmt(arms[0].body, ArmHead(None, subject, bodyName, nextName, at)), exit, exit), reserved)
    decreases arms, 0
  {
    assert (arms decreases to arms[0]) && (arms[0] decreases to arms[0].body);
    var at := TakeLabels(g, if |arms| == 1 then 1 else 2);
    PlanTake(p, g, if |arms| == 1 then 1 else 2, reserved + {m}, reserved + {m} + {n});
    PlanArmHead(p, None, subject, bodyName, nextName, at, n, reserved + {m});
    PlanBody(p, arms[0].body, ArmHead(None, subject, bodyName, nextName, at), exit, exit, m, reserved);
  }

  lemma {:induction false} PlanNextArm(p: Plan, arms: seq<MatchArm>, subject: RegID, exit: string, m: int,
                                       bodyName: string,
                                       nextName: string, g: Gen, n: nat, reserved: set<int>)
    requires ClosedArms(arms) && (p.loops || LoopFreeArms(arms)) && arms[0].pattern.Some? &&
      p.holds(g, reserved + {m}) && m !in reserved && n == g.labels
    requires LabelNumber(exit) == m && LabelNumber(bodyName) == n && ',' !in bodyName && m < n
    requires LabelNumber(nextName) == n + 1 && forall r :: r in reserved ==> r < n
    ensures var at := TakeLabels(g, 2);
            var h := GenStmt(arms[0].body, ArmHead(arms[0].pattern, subject, bodyName, nextName, at));
            p.holds(Close(GenArms(arms[1..], subject, exit, Close(h, exit, nextName)), exit, exit), reserved)
    decreases arms, 0
  {
    assert (arms decreases to arms[0]) && (arms[0] decreases to arms[0].body) && (arms decreases to arms[1..]);
    var at := TakeLabels(g, 2);
    var atBody := ArmHead(arms[0].pattern, subject, bodyName, nextName, at);
    var later := reserved + {m} + {n + 1};
    PlanTake(p, g, 2, reserved + {m}, later + {n});
    PlanArmHead(p, arms[0].pattern, subject, bodyName, nextName, at, n, later);
    PlanBody(p, arms[0].body, atBody, exit, nextName, n + 1, reserved + {m});
    PlanArms(p, arms[1..], subject, exit, m, Close(GenStmt(arms[0].body, atBody), exit, nextName), reserved);
  }
}
