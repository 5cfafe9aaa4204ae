// Shape of the generated control-flow graph, for every function body.
module Cfg {
  import opened Common
  import opened Ast
  import opened Ir
  import opened Labels
  import opened Codegen
  import opened CodegenFrame

  predicate NoTerminator(code: seq<Instr>) {
    forall i :: 0 <= i < |code| ==> !IsTerminator(code[i])
  }

  // Exactly one terminator, and it is the last instruction.
  predicate IsClosed(code: seq<Instr>) {
    IsTerminated(code) && NoTerminator(code[..|code| - 1])
  }

  function Targets(i: Instr): set<string> {
    if i.op.Branch? then {i.tag}
    else if i.op.CondBranch? then
      match SplitTargets(i.tag)
      case None => {}
      case Some((t, f)) => {t, f}
    else {}
  }

  function Names(blocks: seq<BasicBlock>): set<string> {
    set b | b in blocks :: b.name
  }

  // Control can pass from block a to block b.
  ghost predicate Leads(code: seq<BasicBlock>, a: nat, b: nat)
    requires a < |code| && b < |code|
  {
    exists i :: i in code[a].instrs && code[b].name in Targets(i)
  }

  // Every block is closed and branches to a block of this list or to a pending one.
  ghost predicate ClosedTowards(blocks: seq<BasicBlock>, targets: set<string>) {
    forall i :: 0 <= i < |blocks| ==>
      IsClosed(blocks[i].instrs) && Targets(blocks[i].instrs[|blocks[i].instrs| - 1]) <= targets
  }

  // While generating: finished blocks are closed, the current one is open, and the blocks
  // still to come are those named in `pending`.
  ghost predicate Open(g: Gen, pending: set<string>) {
    ClosedTowards(g.done, Names(g.Blocks()) + pending) && NoTerminator(g.code)
  }

  lemma NamesOf(g: Gen)
    ensures Names(g.Blocks()) == Names(g.done) + {g.here}
  {
    var last := BasicBlock(g.here, g.code);
    assert g.Blocks()[|g.done|] == last;
    forall n | n in Names(g.done) + {g.here} ensures n in Names(g.Blocks()) {
      if n in Names(g.done) {
        var b :| b in g.done && b.name == n;
        assert b in g.Blocks();
      }
    }
  }

  lemma OpenPlain(g: Gen, h: Gen, pending: set<string>)
    requires Open(g, pending) && Plain(g, h)
    ensures Open(h, pending)
  {
    NamesOf(g);
    NamesOf(h);
    forall i | 0 <= i < |h.code| ensures !IsTerminator(h.code[i]) {
      if i < |g.code| {
        assert h.code[i] == g.code[i];
      }
    }
  }

  lemma OpenExpr(e: Expr, g: Gen, pending: set<string>)
    requires Open(g, pending)
    ensures Open(GenExpr(e, g).g, pending)
  {
    ExprPlain(e, g);
    OpenPlain(g, GenExpr(e, g).g, pending);
  }

  lemma OpenWider(g: Gen, pending: set<string>, more: set<string>)
    requires Open(g, pending) && pending <= more + Names(g.Blocks())
    ensures Open(g, more)
  {
  }

  // A terminator whose targets exist or are pending, then the next block, which is no
  // longer pending.
  lemma OpenNext(g: Gen, i: Instr, name: string, pending: set<string>)
    requires Open(g, pending + {name}) && IsTerminator(i)
    requires Targets(i) <= Names(g.Blocks()) + pending + {name}
    ensures Open(StartBlock(Append(g, i), name), pending)
  {
    var a := Append(g, i);
    var h := StartBlock(a, name);
    NamesOf(g);
    NamesOf(a);
    NamesOf(h);
    assert a.code[..|a.code| - 1] == g.code;
    forall k | 0 <= k < |h.done|
      ensures IsClosed(h.done[k].instrs) &&
        Targets(h.done[k].instrs[|h.done[k].instrs| - 1]) <= Names(h.Blocks()) + pending
    {
      if k < |g.done| {
        assert h.done[k] == g.done[k];
      } else {
        assert h.done[k] == BasicBlock(g.here, a.code);
      }
    }
  }

  lemma OpenBranch(g: Gen, target: string, name: string, pending: set<string>)
    requires Open(g, pending + {name})
    requires target in Names(g.Blocks()) + pending + {name}
    ensures Open(StartBlock(EmitBranch(g, target), name), pending)
  {
    OpenNext(g, Instr(Branch, NO_REG, [], target), name, pending);
  }

  lemma OpenClose(g: Gen, target: string, name: string, pending: set<string>)
    requires Open(g, pending + {name})
    requires target in Names(g.Blocks()) + pending + {name}
    ensures Open(Close(g, target, name), pending)
  {
    OpenBranch(g, target, name, pending);
  }

  lemma OpenCondBranch(g: Gen, r: RegID, t: string, f: string, pending: set<string>)
    requires Open(g, pending + {t}) && ',' !in t
    requires f in Names(g.Blocks()) + pending + {t}
    ensures Open(StartBlock(EmitCondBranch(g, r, t, f), t), pending)
  {
    SplitJoin(t, f);
    OpenNext(g, Instr(CondBranch, NO_REG, [Reg(r)], JoinTargets(t, f)), t, pending);
  }

  lemma OpenLabels(g: Gen, k: nat, pending: set<string>, more: set<string>)
    requires Open(g, pending) && pending <= more
    ensures Open(TakeLabels(g, k), more)
  {
    assert TakeLabels(g, k).Blocks() == g.Blocks();
  }

  lemma OpenThenHead(c: Expr, hasElse: bool, g: Gen, pending: set<string>)
    requires Open(g, pending)
    ensures Open(ThenHead(c, hasElse, g), pending + {MakeLabel(if hasElse then Else else Merge, IfLabels(c, g) + 1)})
  {
    OpenExpr(c, g, pending);
    OpenThenLabels(c, hasElse, g, IfLabels(c, g), pending);
  }

  lemma OpenThenLabels(c: Expr, hasElse: bool, g: Gen, n: nat, pending: set<string>)
    requires Open(GenExpr(c, g).g, pending) && n == IfLabels(c, g)
    ensures Open(ThenHead(c, hasElse, g), pending + {MakeLabel(if hasElse then Else else Merge, n + 1)})
  {
    LabelHasNoComma(Then, n);
    OpenThenTest(GenExpr(c, g), if hasElse then 3 else 2, MakeLabel(Then, n),
                 MakeLabel(if hasElse then Else else Merge, n + 1), pending);
  }

  lemma OpenThenTest(x: ExprGen, k: nat, t: string, f: string, pending: set<string>)
    requires Open(x.g, pending) && ',' !in t
    ensures Open(StartBlock(EmitCondBranch(TakeLabels(x.g, k), x.reg, t, f), t), pending + {f})
  {
    OpenLabels(x.g, k, pending, pending + {f} + {t});
    OpenCondBranch(TakeLabels(x.g, k), x.reg, t, f, pending + {f});
  }

  // The end of a condition block: branch to the body, with the exit block still to come.
  lemma OpenTest(g: Gen, r: RegID, body: string, exit: string, pending: set<string>)
    requires Open(g, pending) && ',' !in body
    ensures var h := StartBlock(EmitCondBranch(g, r, body, exit), body);
            Open(h, pending + {exit}) && g.here in Names(h.Blocks())
  {
    OpenWider(g, pending, pending + {exit} + {body});
    OpenCondBranch(g, r, body, exit, pending + {exit});
    NamesOf(StartBlock(EmitCondBranch(g, r, body, exit), body));
    NamesOf(EmitCondBranch(g, r, body, exit));
  }

  // Falling into a new block.
  lemma OpenEnter(g: Gen, k: nat, name: string, pending: set<string>)
    requires Open(g, pending)
    ensures Open(StartBlock(EmitBranch(TakeLabels(g, k), name), name), pending)
  {
    OpenLabels(g, k, pending, pending + {name});
    OpenBranch(TakeLabels(g, k), name, name, pending);
  }

  lemma OpenLoopHead(c: Expr, cond: string, bodyName: string, exit: string, g: Gen, pending: set<string>)
    requires Open(g, pending) && ',' !in bodyName
    ensures Open(LoopHead(c, cond, bodyName, exit, g), pending + {exit})
    ensures cond in Names(LoopHead(c, cond, bodyName, exit, g).Blocks())
  {
    OpenEnter(g, 3, cond, pending);
    var atCond := StartBlock(EmitBranch(TakeLabels(g, 3), cond), cond);
    OpenExpr(c, atCond, pending);
    ExprPlain(c, atCond);
    var x := GenExpr(c, atCond);
    OpenTest(x.g, x.reg, bodyName, exit, pending);
  }

  lemma OpenCounterHead(limit: int, slot: RegID, cond: string, bodyName: string, exit: string, g: Gen,
                        pending: set<string>)
    requires Open(g, pending) && ',' !in bodyName
    ensures Open(CounterHead(limit, slot, cond, bodyName, exit, g), pending + {exit})
    ensures cond in Names(CounterHead(limit, slot, cond, bodyName, exit, g).Blocks())
  {
    assert TakeLabels(g, 0) == g;
    OpenEnter(g, 0, cond, pending);
    var atCond := StartBlock(EmitBranch(g, cond), cond);
    var cur := Build(atCond, Load, [Reg(slot)], "");
    var lim := Build(cur.g, Copy, [IntImm(limit)], "");
    var cmp := Build(lim.g, CmpLt, [Reg(cur.reg), Reg(lim.reg)], "");
    OpenPlain(atCond, cmp.g, pending);
    OpenTest(cmp.g, cmp.reg, bodyName, exit, pending);
  }

  lemma OpenCounterStep(slot: RegID, cond: string, exit: string, g: Gen, pending: set<string>)
    requires Open(g, pending + {exit}) && cond in Names(g.Blocks())
    ensures Open(CounterStep(slot, cond, exit, g), pending)
  {
    var cur := Build(g, Load, [Reg(slot)], "");
    var one := Build(cur.g, Copy, [IntImm(1)], "");
    var inc := Build(one.g, Opcode.Add, [Reg(cur.reg), Reg(one.reg)], "");
    var g1 := EmitStore(inc.g, inc.reg, slot);
    OpenPlain(g, g1, pending + {exit});
    NamesOf(g);
    NamesOf(g1);
    OpenBranch(g1, cond, exit, pending);
  }

  lemma OpenForInit(x: string, iterable: Expr, g: Gen, pending: set<string>)
    requires Open(g, pending)
    ensures Open(ForInit(x, iterable, g).g, pending)
  {
    var slot := Build(g, Alloca, [], x);
    OpenPlain(g, slot.g, pending);
    var bound := Bind(slot.g, x, slot.reg);
    assert bound.Blocks() == slot.g.Blocks();
    OpenExpr(iterable, bound, pending);
    var it := GenExpr(iterable, bound);
    OpenPlain(it.g, ForInit(x, iterable, g).g, pending);
  }

  lemma OpenForTest(iter: RegID, cond: string, bodyName: string, exit: string, g: Gen, pending: set<string>)
    requires Open(g, pending) && ',' !in bodyName
    ensures Open(ForTest(iter, cond, bodyName, exit, g), pending + {exit})
    ensures cond in Names(ForTest(iter, cond, bodyName, exit, g).Blocks())
  {
    OpenEnter(g, 3, cond, pending);
    var atCond := StartBlock(EmitBranch(TakeLabels(g, 3), cond), cond);
    var cur := Build(atCond, Load, [Reg(iter)], "");
    OpenPlain(atCond, cur.g, pending);
    OpenTest(cur.g, cur.reg, bodyName, exit, pending);
  }

  lemma OpenArmHead(pattern: Option<Expr>, subject: RegID, bodyName: string, nextName: string, g: Gen,
                    pending: set<string>)
    requires Open(g, pending) && ',' !in bodyName
    ensures Open(ArmHead(pattern, subject, bodyName, nextName, g),
                 if pattern.None? then pending else pending + {nextName})
  {
    match pattern
    case None =>
      OpenWider(g, pending, pending + {bodyName});
      OpenBranch(g, bodyName, bodyName, pending);
    case Some(p) =>
      OpenExpr(p, g, pending);
      var x := GenExpr(p, g);
      var cmp := Build(x.g, CmpEq, [Reg(subject), Reg(x.reg)], "");
      OpenPlain(x.g, cmp.g, pending);
      OpenTest(cmp.g, cmp.reg, bodyName, nextName, pending);
  }

  lemma OpenReturn(result: Option<Expr>, g: Gen, pending: set<string>)
    requires Open(g, pending)
    ensures Open(GenReturn(result, g), pending)
  {
    var g0, r := g, NO_REG;
    if result.Some? {
      OpenExpr(result.value, g, pending);
      g0, r := GenExpr(result.value, g).g, GenExpr(result.value, g).reg;
    }
    var i := Instr(Ret, NO_REG, if r == NO_REG then [] else [Reg(r)], "");
    var name := MakeLabel(AfterRet, g0.labels);
    OpenLabels(g0, 1, pending, pending + {name});
    OpenNext(TakeLabels(g0, 1), i, name, pending);
  }

  lemma OpenVarDecl(x: string, init: Option<Expr>, g: Gen, pending: set<string>)
    requires Open(g, pending)
    ensures Open(GenVarDecl(x, init, g), pending)
  {
    var slot := Build(g, Alloca, [], x);
    OpenPlain(g, slot.g, pending);
    var bound := Bind(slot.g, x, slot.reg);
    assert bound.Blocks() == slot.g.Blocks();
    if init.Some? {
      OpenExpr(init.value, bound, pending);
      var a := GenExpr(init.value, bound);
      OpenPlain(a.g, EmitStore(a.g, a.reg, slot.reg), pending);
    }
  }

  // Names of blocks that exist stay.
  lemma NamesGrow(g: Gen, h: Gen)
    requires Grows(g, h)
    ensures Names(g.Blocks()) <= Names(h.Blocks())
  {
    forall n | n in Names(g.Blocks()) ensures n in Names(h.Blocks()) {
      var k :| 0 <= k < |g.Blocks()| && g.Blocks()[k].name == n;
      if k < |g.done| {
        assert h.Blocks()[k] == g.done[k];
      }
      assert h.Blocks()[k] in h.Blocks();
    }
  }

  lemma {:induction false} OpenStmt(s: Stmt, g: Gen, pending: set<string>)
    requires Open(g, pending)
    ensures Open(GenStmt(s, g), pending)
    decreases s, 2
  {
    match s
    case Block(ss) => OpenStmts(ss, g, pending);
    case ExprStmt(e) => OpenExpr(e, g, pending);
    case VarDecl(_, x, init) => OpenVarDecl(x, init, g, pending);
    case Return(result) => OpenReturn(result, g, pending);
    case If(_, _, _) => OpenIf(s, g, pending);
    case While(c, body) => OpenLoop(c, body, WHILE_LABELS, g, pending);
    case Vloop(c, body) =>
      if c.IntLit? {
        OpenCounted(s, g, pending);
      } else {
        OpenLoop(c, body, VLOOP_LABELS, g, pending);
      }
    case For(_, _, _) => OpenFor(s, g, pending);
    case Break =>
    case Continue =>
    case Match(_, _) => OpenMatch(s, g, pending);
  }

  lemma {:induction false} OpenMatch(s: Stmt, g: Gen, pending: set<string>)
    requires s.Match? && Open(g, pending)
    ensures Open(GenStmt(s, g), pending)
    decreases s, 1
  {
    var x := GenExpr(s.subject, g);
    var exit := MakeLabel(MatchExit, x.g.labels);
    OpenExpr(s.subject, g, pending);
    OpenLabels(x.g, 1, pending, pending + {exit});
    OpenArms(s.arms, x.reg, exit, TakeLabels(x.g, 1), pending);
  }

  lemma {:induction false} OpenFor(s: Stmt, g: Gen, pending: set<string>)
    requires s.For? && Open(g, pending)
    ensures Open(GenStmt(s, g), pending)
    decreases s, 1
  {
    var init := ForInit(s.variable, s.iterable, g);
    var n := init.g.labels;
    var cond, bodyName, exit := MakeLabel(ForCond, n), MakeLabel(ForBody, n + 1), MakeLabel(ForExit, n + 2);
    var atBody := ForTest(init.reg, cond, bodyName, exit, init.g);
    OpenForInit(s.variable, s.iterable, g, pending);
    LabelHasNoComma(ForBody, n + 1);
    OpenForTest(init.reg, cond, bodyName, exit, init.g, pending);
    OpenBack(s.body, atBody, cond, exit, pending);
    ForIs(s, g, init, n, cond, bodyName, exit);
  }

  // A loop body, whose branch goes back to a block that is there already.
  lemma {:induction false} OpenBack(t: Stmt, at: Gen, cond: string, exit: string, pending: set<string>)
    requires Open(at, pending + {exit}) && cond in Names(at.Blocks())
    ensures Open(Close(GenStmt(t, at), cond, exit), pending)
    decreases t, 3
  {
    OpenStmt(t, at, pending + {exit});
    StmtVisits(t, at);
    NamesGrow(at, GenStmt(t, at));
    OpenClose(GenStmt(t, at), cond, exit, pending);
  }

  lemma {:induction false} OpenIf(s: Stmt, g: Gen, pending: set<string>)
    requires s.If? && Open(g, pending)
    ensures Open(GenStmt(s, g), pending)
    decreases s, 1
  {
    var n := IfLabels(s.cond, g);
    OpenThenHead(s.cond, s.elseBranch.Some?, g, pending);
    if s.elseBranch.None? {
      var merge := MakeLabel(Merge, n + 1);
      OpenBody(s.thenBranch, ThenHead(s.cond, false, g), merge, merge, pending);
      IfIs(s, g, n, merge);
    } else {
      var other, merge := MakeLabel(Else, n + 1), MakeLabel(Merge, n + 2);
      OpenBranches(s, s.elseBranch.value, ThenHead(s.cond, true, g), other, merge, pending);
      IfElseIs(s, s.elseBranch.value, g, n, other, merge);
    }
  }

  // A branch whose target is the block that follows it.
  lemma {:induction false} OpenBody(t: Stmt, at: Gen, target: string, name: string, pending: set<string>)
    requires Open(at, pending + {name}) && target in pending + {name}
    ensures Open(Close(GenStmt(t, at), target, name), pending)
    decreases t, 3
  {
    OpenStmt(t, at, pending + {name});
    OpenClose(GenStmt(t, at), target, name, pending);
  }

  lemma {:induction false} OpenBranches(s: Stmt, f: Stmt, at: Gen, other: string, merge: string, pending: set<string>)
    requires s.If? && s.elseBranch == Some(f) && Open(at, pending + {other})
    ensures Open(Close(GenStmt(f, Close(GenStmt(s.thenBranch, at), merge, other)), merge, merge), pending)
    decreases s, 0
  {
    OpenWider(at, pending + {other}, pending + {merge} + {other});
    OpenBody(s.thenBranch, at, merge, other, pending + {merge});
    OpenBody(f, Close(GenStmt(s.thenBranch, at), merge, other), merge, merge, pending);
  }

  lemma {:induction false} OpenLoop(c: Expr, body: Stmt, ls: LoopLabels, g: Gen, pending: set<string>)
    requires Open(g, pending)
    ensures Open(GenLoop(c, body, ls, g), pending)
    decreases body, 5
  {
    var n := g.labels;
    var cond, bodyName, exit := MakeLabel(ls.cond, n), MakeLabel(ls.body, n + 1), MakeLabel(ls.exit, n + 2);
    LabelHasNoComma(ls.body, n + 1);
    OpenLoopNamed(c, body, cond, bodyName, exit, g, pending);
    LoopIs(c, body, ls, g, cond, bodyName, exit);
  }

  lemma {:induction false} OpenLoopNamed(c: Expr, body: Stmt, cond: string, bodyName: string, exit: string, g: Gen,
                                         pending: set<string>)
    requires Open(g, pending) && ',' !in bodyName
    ensures Open(Close(GenStmt(body, LoopHead(c, cond, bodyName, exit, g)), cond, exit), pending)
    decreases body, 4
  {
    OpenLoopHead(c, cond, bodyName, exit, g, pending);
    OpenBack(body, LoopHead(c, cond, bodyName, exit, g), cond, exit, pending);
  }

  lemma {:induction false} OpenCounted(s: Stmt, g: Gen, pending: set<string>)
    requires s.Vloop? && s.cond.IntLit? && Open(g, pending)
    ensures Open(GenStmt(s, g), pending)
    decreases s, 1
  {
    var init := CounterInit(g);
    var cond, bodyName, exit := MakeLabel(VloopCond, g.labels + 1), MakeLabel(VloopBody, g.labels + 2),
      MakeLabel(VloopExit, g.labels + 3);
    LabelHasNoComma(VloopBody, g.labels + 2);
    OpenLabels(g, 4, pending, pending);
    OpenPlain(TakeLabels(g, 4), init.g, pending);
    var atBody := CounterHead(s.cond.value, init.reg, cond, bodyName, exit, init.g);
    OpenCounterHead(s.cond.value, init.reg, cond, bodyName, exit, init.g, pending);
    OpenStmt(s.body, atBody, pending + {exit});
    StmtVisits(s.body, atBody);
    NamesGrow(atBody, GenStmt(s.body, atBody));
    OpenCounterStep(init.reg, cond, exit, GenStmt(s.body, atBody), pending);
  }

  lemma {:induction false} OpenStmts(ss: seq<Stmt>, g: Gen, pending: set<string>)
    requires Open(g, pending)
    ensures Open(GenStmts(ss, g), pending)
    decreases ss, 0
  {
    if ss != [] {
      OpenStmt(ss[0], g, pending);
      OpenStmts(ss[1..], GenStmt(ss[0], g), pending);
    }
  }

  // One arm, up to the end of its body.
  lemma {:induction false} OpenArm(arm: MatchArm, subject: RegID, bodyName: string, nextName: string, g: Gen, k: nat,
                                   pending: set<string>)
    requires Open(g, pending) && ',' !in bodyName
    ensures Open(GenStmt(arm.body, ArmHead(arm.pattern, subject, bodyName, nextName, TakeLabels(g, k))),
                 if arm.pattern.None? then pending else pending + {nextName})
    decreases arm, 0
  {
    OpenLabels(g, k, pending, pending);
    var g0 := TakeLabels(g, k);
    OpenArmHead(arm.pattern, subject, bodyName, nextName, g0, pending);
    OpenStmt(arm.body, ArmHead(arm.pattern, subject, bodyName, nextName, g0),
             if arm.pattern.None? then pending else pending + {nextName});
  }

  // The arms, and the exit block after them.
  lemma {:induction false} OpenArms(arms: seq<MatchArm>, subject: RegID, exit: string, g: Gen, pending: set<string>)
    requires Open(g, pending + {exit})
    ensures Open(Close(GenArms(arms, subject, exit, g), exit, exit), pending)
    decreases arms, 1
  {
    if arms == [] {
      OpenClose(g, exit, exit, pending);
    } else {
      var last := |arms| == 1;
      var bodyName, nextName := MakeLabel(ArmBody, g.labels), NextArm(last, exit, g);
      LabelHasNoComma(ArmBody, g.labels);
      OpenArmsNamed(arms, subject, exit, g, bodyName, nextName, if last then 1 else 2, pending);
      ArmsAre(arms, subject, exit, g, g.labels, bodyName, nextName);
    }
  }

  lemma {:induction false} OpenArmsNamed(arms: seq<MatchArm>, subject: RegID, exit: string, g: Gen, bodyName: string,
                                         nextName: string, k: nat, pending: set<string>)
    requires arms != [] && Open(g, pending + {exit}) && ',' !in bodyName
    ensures var h := GenStmt(arms[0].body, ArmHead(arms[0].pattern, subject, bodyName, nextName, TakeLabels(g, k)));
      var end := if arms[0].pattern.None? then BranchIfOpen(h, exit)
                 else GenArms(arms[1..], subject, exit, Close(h, exit, nextName));
      Open(Close(end, exit, exit), pending)
    decreases arms, 0
  {
    OpenArm(arms[0], subject, bodyName, nextName, g, k, pending + {exit});
    var h := GenStmt(arms[0].body, ArmHead(arms[0].pattern, subject, bodyName, nextName, TakeLabels(g, k)));
    if arms[0].pattern.None? {
      OpenClose(h, exit, exit, pending);
    } else {
      OpenClose(h, exit, nextName, pending + {exit});
      OpenArms(arms[1..], subject, exit, Close(h, exit, nextName), pending);
    }
  }

  // Visiting a statement leaves the current block open, so the guard in front of the branch
  // that follows it never suppresses that branch.
  lemma GuardNeverSuppresses(s: Stmt, g: Gen, target: string, pending: set<string>)
    requires Open(g, pending)
    ensures BranchIfOpen(GenStmt(s, g), target) == EmitBranch(GenStmt(s, g), target)
  {
    OpenStmt(s, g, pending);
  }
}
