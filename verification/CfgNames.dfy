// Which programs give every block a name of its own.
module CfgNames {
  import opened Common
  import opened Ast
  import opened Ir
  import opened Labels
  import opened Codegen
  import opened CodegenFrame
  import opened Cfg
  import opened BlockNumbers

  ghost predicate Repeats(g: Gen) {
    exists i, j :: 0 <= i < j < |g.Blocks()| && g.Blocks()[i].name == g.Blocks()[j].name
  }

  lemma RepeatsGrow(g: Gen, h: Gen)
    requires Repeats(g) && Grows(g, h)
    ensures Repeats(h)
  {
    var i, j :| 0 <= i < j < |g.Blocks()| && g.Blocks()[i].name == g.Blocks()[j].name;
    assert h.Blocks()[i].name == g.Blocks()[i].name;
    assert h.Blocks()[j].name == g.Blocks()[j].name by {
      if j < |g.done| {
        assert h.Blocks()[j] == g.done[j];
      }
    }
  }

  lemma RepeatsClose(g: Gen, target: string, name: string)
    requires Repeats(g) || g.here == name
    ensures Repeats(Close(g, target, name))
  {
    VisitsSameBlock(g, g);
    VisitsClose(g, g, target, name, {});
    if Repeats(g) {
      RepeatsGrow(g, Close(g, target, name));
    } else {
      var h := Close(g, target, name);
      assert h.Blocks()[|g.done|].name == h.Blocks()[|g.done| + 1].name;
    }
  }

  lemma {:induction false} RepeatsStmt(s: Stmt, g: Gen)
    requires !ClosedMatches(s)
    ensures Repeats(GenStmt(s, g))
    decreases s, 2
  {
    match s
    case Block(ss) => RepeatsStmts(ss, g);
    case If(_, _, _) => RepeatsIf(s, g);
    case While(c, body) => RepeatsLoop(c, body, WHILE_LABELS, g);
    case Vloop(c, body) =>
      if c.IntLit? {
        RepeatsCounted(s, g);
      } else {
        RepeatsLoop(c, body, VLOOP_LABELS, g);
      }
    case For(_, _, _) => RepeatsFor(s, g);
    case Match(_, _) => RepeatsMatch(s, g);
  }

  lemma {:induction false} RepeatsFor(s: Stmt, g: Gen)
    requires s.For? && !ClosedMatches(s)
    ensures Repeats(GenStmt(s, g))
    decreases s, 1
  {
    var n := ForInit(s.variable, s.iterable, g).g.labels;
    RepeatsBody(s.body, ForHead(s.variable, s.iterable, g), MakeLabel(ForCond, n), MakeLabel(ForExit, n + 2));
  }

  lemma {:induction false} RepeatsMatch(s: Stmt, g: Gen)
    requires s.Match? && !ClosedMatches(s)
    ensures Repeats(GenStmt(s, g))
    decreases s, 1
  {
    var x := GenExpr(s.subject, g);
    var exit := MakeLabel(MatchExit, x.g.labels);
    RepeatsArms(s.arms, x.reg, exit, TakeLabels(x.g, 1));
    RepeatsClose(GenArms(s.arms, x.reg, exit, TakeLabels(x.g, 1)), exit, exit);
  }

  // A statement that repeats a name, followed by the end of its branch.
  lemma {:induction false} RepeatsBody(t: Stmt, at: Gen, target: string, name: string)
    requires !ClosedMatches(t)
    ensures Repeats(Close(GenStmt(t, at), target, name))
    decreases t, 3
  {
    RepeatsStmt(t, at);
    RepeatsClose(GenStmt(t, at), target, name);
  }

  lemma {:induction false} RepeatsCounted(s: Stmt, g: Gen)
    requires s.Vloop? && s.cond.IntLit? && !ClosedMatches(s)
    ensures Repeats(GenStmt(s, g))
    decreases s, 1
  {
    var init, n := CounterInit(g), g.labels;
    var cond, bodyName, exit := MakeLabel(VloopCond, n + 1), MakeLabel(VloopBody, n + 2), MakeLabel(VloopExit, n + 3);
    var atBody := CounterHead(s.cond.value, init.reg, cond, bodyName, exit, init.g);
    RepeatsStmt(s.body, atBody);
    VisitsCounterStep(init.reg, cond, exit, GenStmt(s.body, atBody));
    RepeatsGrow(GenStmt(s.body, atBody), CounterStep(init.reg, cond, exit, GenStmt(s.body, atBody)));
    CountedIs(s, g, n, cond, bodyName, exit);
  }

  lemma {:induction false} RepeatsIf(s: Stmt, g: Gen)
    requires s.If? && !ClosedMatches(s)
    ensures Repeats(GenStmt(s, g))
    decreases s, 1
  {
    var n := IfLabels(s.cond, g);
    if s.elseBranch.None? {
      var merge := MakeLabel(Merge, n + 1);
      RepeatsBody(s.thenBranch, ThenHead(s.cond, false, g), merge, merge);
      IfIs(s, g, n, merge);
    } else {
      var other, merge := MakeLabel(Else, n + 1), MakeLabel(Merge, n + 2);
      RepeatsBranches(s, s.elseBranch.value, ThenHead(s.cond, true, g), other, merge);
      IfElseIs(s, s.elseBranch.value, g, n, other, merge);
    }
  }

  lemma {:induction false} RepeatsBranches(s: Stmt, f: Stmt, at: Gen, other: string, merge: string)
    requires s.If? && s.elseBranch == Some(f) && !ClosedMatches(s)
    ensures Repeats(Close(GenStmt(f, Close(GenStmt(s.thenBranch, at), merge, other)), merge, merge))
    decreases s, 0
  {
    var atElse := Close(GenStmt(s.thenBranch, at), merge, other);
    if ClosedMatches(s.thenBranch) {
      RepeatsBody(f, atElse, merge, merge);
    } else {
      RepeatsBody(s.thenBranch, at, merge, other);
      StmtVisits(f, atElse);
      RepeatsGrow(atElse, GenStmt(f, atElse));
      RepeatsClose(GenStmt(f, atElse), merge, merge);
    }
  }

  lemma {:induction false} RepeatsLoop(c: Expr, body: Stmt, ls: LoopLabels, g: Gen)
    requires !ClosedMatches(body)
    ensures Repeats(GenLoop(c, body, ls, g))
    decreases body, 4
  {
    var n := g.labels;
    var cond, bodyName, exit := MakeLabel(ls.cond, n), MakeLabel(ls.body, n + 1), MakeLabel(ls.exit, n + 2);
    RepeatsBody(body, LoopHead(c, cond, bodyName, exit, g), cond, exit);
    LoopIs(c, body, ls, g, cond, bodyName, exit);
  }

  lemma {:induction false} RepeatsStmts(ss: seq<Stmt>, g: Gen)
    requires !ClosedMatchesIn(ss)
    ensures Repeats(GenStmts(ss, g))
    decreases ss, 0
  {
    var g1 := GenStmt(ss[0], g);
    if !ClosedMatches(ss[0]) {
      RepeatsStmt(ss[0], g);
      StmtsVisit(ss[1..], g1);
      RepeatsGrow(g1, GenStmts(ss, g));
    } else {
      RepeatsStmts(ss[1..], g1);
    }
  }

  // A chain of arms that is not closed either repeats a name already, or ends inside the
  // exit block that the match is about to add once more.
  lemma {:induction false} RepeatsArms(arms: seq<MatchArm>, subject: RegID, exit: string, g: Gen)
    requires arms != [] && !ClosedArms(arms)
    ensures Repeats(GenArms(arms, subject, exit, g)) || GenArms(arms, subject, exit, g).here == exit
    decreases arms, 1
  {
    var last := |arms| == 1;
    RepeatsArmsFrom(arms, subject, exit, NextArm(last, exit, g), AtArm(arms[0], subject, last, exit, g), last);
    ArmsUnfold(arms, subject, exit, g);
  }

  lemma {:induction false} RepeatsArmsFrom(arms: seq<MatchArm>, subject: RegID, exit: string, nextName: string, at: Gen,
                                           last: bool)
    requires arms != [] && !ClosedArms(arms) && last == (|arms| == 1) && (last ==> nextName == exit)
    ensures var h := GenStmt(arms[0].body, at);
      var end := if arms[0].pattern.None? then BranchIfOpen(h, exit)
                 else GenArms(arms[1..], subject, exit, Close(h, exit, nextName));
      Repeats(end) || end.here == exit
    decreases arms, 0
  {
    assert (arms decreases to arms[0]) && (arms[0] decreases to arms[0].body);
    var h := GenStmt(arms[0].body, at);
    if !ClosedMatches(arms[0].body) {
      RepeatsStmt(arms[0].body, at);
      if arms[0].pattern.None? {
        VisitsSameBlock(h, BranchIfOpen(h, exit));
        RepeatsGrow(h, BranchIfOpen(h, exit));
      } else {
        var next := Close(h, exit, nextName);
        RepeatsClose(h, exit, nextName);
        ArmsVisit(arms[1..], subject, exit, next);
        RepeatsGrow(next, GenArms(arms[1..], subject, exit, next));
      }
    } else if !last {
      RepeatsArms(arms[1..], subject, exit, Close(h, exit, nextName));
    }
  }

  // The main results about whole functions.

  ghost predicate UniqueNames(blocks: seq<BasicBlock>) {
    forall i, j :: 0 <= i < j < |blocks| ==> blocks[i].name != blocks[j].name
  }

  lemma {:induction false} ParamsPlain(params: seq<string>, i: nat, g: Gen)
    ensures var h := GenParams(params, i, g);
            && h.done == g.done && h.here == g.here && h.labels == g.labels && g.code <= h.code
            && (forall k :: |g.code| <= k < |h.code| ==> !IsTerminator(h.code[k]))
    decreases params
  {
    if params != [] {
      var g1 := GenParam(params[0], i, g);
      ParamsPlain(params[1..], i + 1, g1);
      var h := GenParams(params, i, g);
      forall k | |g.code| <= k < |h.code| ensures !IsTerminator(h.code[k]) {
        if k < |g1.code| {
          assert h.code[k] == g1.code[k];
        }
      }
    }
  }

  lemma ClosedByRet(b: Gen)
    requires Open(b, {})
    ensures var blocks := EmitRet(b, NO_REG).Blocks();
            ClosedTowards(blocks, Names(blocks))
  {
    var h := EmitRet(b, NO_REG);
    var blocks := h.Blocks();
    NamesOf(b);
    NamesOf(h);
    assert h.code[..|h.code| - 1] == b.code;
    forall i | 0 <= i < |blocks|
      ensures IsClosed(blocks[i].instrs) && Targets(blocks[i].instrs[|blocks[i].instrs| - 1]) <= Names(blocks)
    {
      if i < |b.done| {
        assert blocks[i] == b.done[i];
      } else {
        assert blocks[i].instrs == h.code;
      }
    }
  }

  // Every block of a generated function ends in its only terminator, whose targets are
  // blocks of the function; the end of the body is open, so its `ret` is always added.
  lemma BlocksAreClosed(f: FunctionDecl)
    ensures Open(GenBody(f), {})
    ensures GenFunction(f) == EmitRet(GenBody(f), NO_REG).Blocks()
    ensures ClosedTowards(GenFunction(f), Names(GenFunction(f)))
  {
    ParamsPlain(f.params, 0, EMPTY);
    var g := GenParams(f.params, 0, EMPTY);
    assert Open(g, {});
    if f.body.Some? {
      OpenStmt(f.body.value, g, {});
    }
    ClosedByRet(GenBody(f));
  }

  // Label numbers and edges of a whole body.
  lemma BodyPlanned(f: FunctionDecl, loops: bool)
    requires f.body.Some? ==> ClosedMatches(f.body.value) && (loops || LoopFree(f.body.value))
    ensures Distinct(GenBody(f), {}, loops)
  {
    var p := Planning(loops);
    var g := GenParams(f.params, 0, EMPTY);
    ParamsPlain(f.params, 0, EMPTY);
    LabelNumberOfEntry();
    assert Distinct(g, {}, loops);
    if f.body.Some? {
      PlanStmt(p, f.body.value, g, {});
    }
    assert Distinct(GenBody(f), {}, loops);
  }

  lemma DistinctNames(b: Gen, blocks: seq<BasicBlock>)
    requires Distinct(b, {}, true) && blocks == EmitRet(b, NO_REG).Blocks()
    ensures UniqueNames(blocks)
  {
    forall i, j | 0 <= i < j < |blocks| ensures blocks[i].name != blocks[j].name {
      assert LabelNumber(blocks[i].name) == Numbers(b)[i];
      assert LabelNumber(blocks[j].name) == Numbers(b)[j];
    }
  }

  lemma RepeatedName(b: Gen, blocks: seq<BasicBlock>)
    requires Repeats(b) && blocks == EmitRet(b, NO_REG).Blocks()
    ensures !UniqueNames(blocks)
  {
    var i, j :| 0 <= i < j < |b.Blocks()| && b.Blocks()[i].name == b.Blocks()[j].name;
    assert blocks[i].name == blocks[j].name;
  }

  // Block names are unique, so that every branch target names exactly one block, if and
  // only if every lowered match has no arms or a wildcard.
  lemma NamesUniqueIffMatchesClosed(f: FunctionDecl)
    ensures UniqueNames(GenFunction(f)) <==> (f.body.Some? ==> ClosedMatches(f.body.value))
  {
    BlocksAreClosed(f);
    if f.body.Some? ==> ClosedMatches(f.body.value) {
      BodyPlanned(f, true);
      DistinctNames(GenBody(f), GenFunction(f));
    } else {
      RepeatsStmt(f.body.value, GenParams(f.params, 0, EMPTY));
      RepeatedName(GenBody(f), GenFunction(f));
    }
  }

  // `match 0 { 1 => {} }` adds its exit block twice.
  lemma MatchWithoutWildcardRepeatsName(f: FunctionDecl)
    requires f == FunctionDecl("f", [], Some(Match(IntLit(0), [MatchArm(Some(IntLit(1)), Block([]))])))
    ensures !UniqueNames(GenFunction(f))
  {
    var arms := f.body.value.arms;
    assert arms[1..] == [] && !ClosedArms(arms[1..]);
    NamesUniqueIffMatchesClosed(f);
  }
}
