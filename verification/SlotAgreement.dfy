// The flat slot map and the scope stack agree at every use exactly in the programs that
// pass the textual check.
module SlotAgreement {
  import opened Common
  import opened Ast
  import opened Ir
  import opened Labels
  import opened ScopeStack
  import opened Codegen
  import opened CodegenFrame
  import opened SlotScopes

  lemma DeclRebinds(x: string, init: Option<Expr>, g: Gen)
    ensures Rebinds(g, GenVarDecl(x, init, g), {x}) && GenVarDecl(x, init, g).slots == g.slots[x := g.regs + 1]
  {
    var slot := Build(g, Alloca, [], x);
    if init.Some? {
      QuietExpr(init.value, Bind(slot.g, x, slot.reg));
    }
  }

  lemma ForHeadBinds(x: string, iterable: Expr, g: Gen)
    ensures ForHead(x, iterable, g).slots == g.slots[x := g.regs + 1] && g.regs < ForHead(x, iterable, g).regs
  {
    var slot := Build(g, Alloca, [], x);
    QuietExpr(iterable, Bind(slot.g, x, slot.reg));
  }

  // The invariant: exactly the stale names disagree, and no slot is from the future.

  ghost predicate Exact(g: Gen, scopes: Frames, stale: set<string>) {
    && scopes != []
    && (forall x :: Same(g.slots, scopes, x) <==> x !in stale)
    && (forall x :: x in g.slots ==> g.slots[x] <= g.regs)
    && forall i, x :: 0 <= i < |scopes| && x in scopes[i] ==> scopes[i][x] <= g.regs
  }

  lemma ExactQuiet(g: Gen, h: Gen, scopes: Frames, stale: set<string>)
    requires Exact(g, scopes, stale) && Quiet(g, h)
    ensures Exact(h, scopes, stale)
  {
    forall x ensures Same(h.slots, scopes, x) <==> x !in stale {
      assert Same(g.slots, scopes, x) <==> x !in stale;
    }
  }

  lemma AgreesExactly(names: set<string>, g: Gen, scopes: Frames, stale: set<string>)
    requires Exact(g, scopes, stale)
    ensures Agrees(names, g.slots, scopes) <==> names !! stale
  {
    forall x | x in names ensures Same(g.slots, scopes, x) <==> x !in stale {
    }
    if Agrees(names, g.slots, scopes) {
      forall x | x in names ensures x !in stale {
        assert Same(g.slots, scopes, x);
      }
    }
  }

  // A name bound to the next register, in both.
  lemma ExactBind(g: Gen, h: Gen, scopes: Frames, stale: set<string>, x: string, after: Frames)
    requires Exact(g, scopes, stale) && h.slots == g.slots[x := g.regs + 1] && g.regs < h.regs
    requires after == Declare(scopes, x, g.regs + 1) || after == ForScope(x, g, scopes)
    ensures Exact(h, after, stale - {x})
  {
    forall y ensures Same(h.slots, after, y) <==> y !in stale - {x} {
      LookupDeclared(scopes, x, g.regs + 1, y);
      LookupInner(scopes, map[x := g.regs + 1], y);
      assert Same(g.slots, scopes, y) <==> y !in stale;
    }
  }

  // The new slot of a declared name is not the one an outer declaration has.
  lemma ExactInitialiser(g: Gen, scopes: Frames, stale: set<string>, x: string, names: set<string>)
    requires Exact(g, scopes, stale)
    ensures Agrees(names, WithNext(x, g), scopes) <==> names !! (stale + {x})
  {
    var slots := WithNext(x, g);
    forall y ensures Same(slots, scopes, y) <==> y !in stale + {x} {
      assert Same(g.slots, scopes, y) <==> y !in stale;
    }
    if Agrees(names, slots, scopes) {
      forall y | y in names ensures y !in stale + {x} {
        assert Same(slots, scopes, y);
      }
    }
  }

  // Leaving the scopes opened since: the names bound meanwhile are left behind.
  lemma ExactLeave(g: Gen, h: Gen, scopes: Frames, stale: set<string>, bound: set<string>)
    requires Exact(g, scopes, stale) && Rebinds(g, h, bound)
    ensures Exact(h, scopes, stale + bound)
  {
    forall x ensures Same(h.slots, scopes, x) <==> x !in stale + bound {
      assert Same(g.slots, scopes, x) <==> x !in stale;
    }
  }

  lemma ExactEnter(g: Gen, scopes: Frames, stale: set<string>)
    requires Exact(g, scopes, stale)
    ensures Exact(g, scopes + [map[]], stale)
  {
    forall x ensures Same(g.slots, scopes + [map[]], x) <==> x !in stale {
      LookupInner(scopes, map[], x);
      assert Same(g.slots, scopes, x) <==> x !in stale;
    }
  }

  // The walk over the states and the check over the text go together.
  ghost predicate Together(w: Walked, h: Gen, c: Checked) {
    (w.agrees <==> c.ok) && Exact(h, w.scopes, c.stale)
  }

  lemma {:induction false} StmtTogether(s: Stmt, g: Gen, scopes: Frames, stale: set<string>)
    requires Exact(g, scopes, stale)
    ensures Together(Walk(s, g, scopes), GenStmt(s, g), Check(s, stale))
    decreases s, 2
  {
    if s.Block? {
      BlockTogether(s, g, scopes, stale);
    } else if s.ExprStmt? {
      ExprStmtTogether(s, g, scopes, stale);
    } else if s.VarDecl? {
      DeclStmtTogether(s, g, scopes, stale);
    } else if s.Return? {
      ReturnTogether(s, g, scopes, stale);
    } else if s.If? {
      if s.elseBranch.None? {
        IfTogether(s, g, scopes, stale);
      } else {
        IfElseTogether(s, s.elseBranch.value, g, scopes, stale);
      }
    } else if s.While? || (s.Vloop? && !s.cond.IntLit?) {
      LoopStmtTogether(s, g, scopes, stale);
    } else if s.Vloop? {
      CountedTogether(s, g, scopes, stale);
    } else if s.For? {
      ForTogether(s, g, scopes, stale);
    } else if s.Match? {
      MatchTogether(s, g, scopes, stale);
    } else {
      IdleTogether(s, g, scopes, stale);
    }
  }

  lemma DeclStmtTogether(s: Stmt, g: Gen, scopes: Frames, stale: set<string>)
    requires s.VarDecl? && Exact(g, scopes, stale)
    ensures Together(Walk(s, g, scopes), GenStmt(s, g), Check(s, stale))
  {
    var VarDecl(_, x, init) := s;
    DeclTogether(x, init, g, scopes, stale);
    DeclIs(s, x, init, g, scopes, stale);
  }

  lemma DeclIs(s: Stmt, x: string, init: Option<Expr>, g: Gen, scopes: Frames, stale: set<string>)
    requires s.VarDecl? && s.name == x && s.init == init && scopes != []
    ensures Walk(s, g, scopes) == Walked(Agrees(UsesOf(init), WithNext(x, g), scopes), Declare(scopes, x, g.regs + 1))
    ensures GenStmt(s, g) == GenVarDecl(x, init, g)
    ensures Check(s, stale) == Checked(UsesOf(init) !! (stale + {x}), stale - {x})
  {
  }

  lemma IdleTogether(s: Stmt, g: Gen, scopes: Frames, stale: set<string>)
    requires (s.Break? || s.Continue?) && Exact(g, scopes, stale)
    ensures Together(Walk(s, g, scopes), GenStmt(s, g), Check(s, stale))
  {
  }

  lemma ExprStmtTogether(s: Stmt, g: Gen, scopes: Frames, stale: set<string>)
    requires s.ExprStmt? && Exact(g, scopes, stale)
    ensures Together(Walk(s, g, scopes), GenStmt(s, g), Check(s, stale))
  {
    ExprTogether(Some(s.expr), g, GenStmt(s, g), scopes, stale);
  }

  lemma ReturnTogether(s: Stmt, g: Gen, scopes: Frames, stale: set<string>)
    requires s.Return? && Exact(g, scopes, stale)
    ensures Together(Walk(s, g, scopes), GenStmt(s, g), Check(s, stale))
  {
    ExprTogether(s.result, g, GenStmt(s, g), scopes, stale);
  }

  lemma {:induction false} LoopStmtTogether(s: Stmt, g: Gen, scopes: Frames, stale: set<string>)
    requires (s.While? || (s.Vloop? && !s.cond.IntLit?)) && Exact(g, scopes, stale)
    ensures Together(Walk(s, g, scopes), GenStmt(s, g), Check(s, stale))
    decreases s, 1
  {
    LoopTogether(s.cond, s.body, if s.While? then WHILE_LABELS else VLOOP_LABELS, g, scopes, stale);
  }

  lemma ExprTogether(e: Option<Expr>, g: Gen, h: Gen, scopes: Frames, stale: set<string>)
    requires Exact(g, scopes, stale) && Quiet(if e.Some? then GenExpr(e.value, g).g else g, h)
    ensures Together(Walked(Agrees(UsesOf(e), g.slots, scopes), scopes), h, Checked(UsesOf(e) !! stale, stale))
  {
    AgreesExactly(UsesOf(e), g, scopes, stale);
    if e.Some? {
      QuietExpr(e.value, g);
    }
    ExactQuiet(g, h, scopes, stale);
  }

  lemma DeclTogether(x: string, init: Option<Expr>, g: Gen, scopes: Frames, stale: set<string>)
    requires Exact(g, scopes, stale)
    ensures Agrees(UsesOf(init), WithNext(x, g), scopes) <==> UsesOf(init) !! (stale + {x})
    ensures Exact(GenVarDecl(x, init, g), Declare(scopes, x, g.regs + 1), stale - {x})
  {
    ExactInitialiser(g, scopes, stale, x, UsesOf(init));
    DeclRebinds(x, init, g);
    ExactBind(g, GenVarDecl(x, init, g), scopes, stale, x, Declare(scopes, x, g.regs + 1));
  }

  lemma {:induction false} BlockTogether(s: Stmt, g: Gen, scopes: Frames, stale: set<string>)
    requires s.Block? && Exact(g, scopes, stale)
    ensures Together(Walk(s, g, scopes), GenStmt(s, g), Check(s, stale))
    decreases s, 1
  {
    var ss := s.stmts;
    var inner := scopes + [map[]];
    ExactEnter(g, scopes, stale);
    StmtsTogether(ss, g, inner, stale);
    assert inner[..|inner| - 1] == scopes;
    StmtsVisit(ss, g);
    ExactLeave(g, GenStmts(ss, g), scopes, stale, BindsIn(ss));
  }

  lemma {:induction false} StmtsTogether(ss: seq<Stmt>, g: Gen, scopes: Frames, stale: set<string>)
    requires Exact(g, scopes, stale)
    ensures Together(WalkAll(ss, g, scopes), GenStmts(ss, g), CheckAll(ss, stale))
    decreases ss, 0
  {
    if ss != [] {
      StmtTogether(ss[0], g, scopes, stale);
      StmtsTogether(ss[1..], GenStmt(ss[0], g), Walk(ss[0], g, scopes).scopes, Check(ss[0], stale).stale);
    }
  }

  lemma {:induction false} IfTogether(s: Stmt, g: Gen, scopes: Frames, stale: set<string>)
    requires s.If? && s.elseBranch.None? && Exact(g, scopes, stale)
    ensures Together(Walk(s, g, scopes), GenStmt(s, g), Check(s, stale))
    decreases s, 1
  {
    var at := ThenHead(s.cond, false, g);
    AgreesExactly(Uses(s.cond), g, scopes, stale);
    QuietHead(s.cond, false, g);
    ExactQuiet(g, at, scopes, stale);
    StmtTogether(s.thenBranch, at, scopes, stale);
    ExactQuiet(GenStmt(s.thenBranch, at), GenStmt(s, g), Walk(s.thenBranch, at, scopes).scopes,
               Check(s.thenBranch, stale).stale);
  }

  // Up to the start of the else block.
  lemma {:induction false} ThenTogether(c: Expr, t: Stmt, g: Gen, scopes: Frames, stale: set<string>, w: Walked)
    requires Exact(g, scopes, stale) && w == Walk(t, ThenHead(c, true, g), scopes)
    ensures Agrees(Uses(c), g.slots, scopes) <==> Uses(c) !! stale
    ensures Together(w, AtElse(c, t, g), Check(t, stale))
    decreases t, 3
  {
    var at := ThenHead(c, true, g);
    AgreesExactly(Uses(c), g, scopes, stale);
    QuietHead(c, true, g);
    ExactQuiet(g, at, scopes, stale);
    StmtTogether(t, at, scopes, stale);
    ExactQuiet(GenStmt(t, at), AtElse(c, t, g), w.scopes, Check(t, stale).stale);
  }

  lemma {:induction false} IfElseTogether(s: Stmt, f: Stmt, g: Gen, scopes: Frames, stale: set<string>)
    requires s.If? && s.elseBranch == Some(f) && Exact(g, scopes, stale)
    ensures Together(Walk(s, g, scopes), GenStmt(s, g), Check(s, stale))
    decreases s, 1
  {
    var w := Walk(s.thenBranch, ThenHead(s.cond, true, g), scopes);
    var other := AtElse(s.cond, s.thenBranch, g);
    var c := Check(s.thenBranch, stale);
    var v := Walk(f, other, w.scopes);
    ThenTogether(s.cond, s.thenBranch, g, scopes, stale, w);
    QuietElse(s, f, g);
    ElseTogether(f, other, GenStmt(s, g), w.scopes, c.stale);
    WalkIfElse(s, f, g, scopes, w, v);
    BothTogether(Agrees(Uses(s.cond), g.slots, scopes), Uses(s.cond) !! stale, w.agrees, c.ok, v, GenStmt(s, g),
                 Check(f, c.stale));
    CheckIfElse(s, f, stale, c, Check(f, c.stale));
  }

  lemma QuietElse(s: Stmt, f: Stmt, g: Gen)
    requires s.If? && s.elseBranch == Some(f)
    ensures Quiet(GenStmt(f, AtElse(s.cond, s.thenBranch, g)), GenStmt(s, g))
  {
    var n := IfLabels(s.cond, g);
    IfElseIs(s, f, g, n, MakeLabel(Else, n + 1), MakeLabel(Merge, n + 2));
  }

  lemma BothTogether(a: bool, b: bool, agrees: bool, ok: bool, v: Walked, h: Gen, c: Checked)
    requires (a <==> b) && (agrees <==> ok) && Together(v, h, c)
    ensures Together(Also(a && agrees, v), h, AlsoOk(b && ok, c))
  {
  }

  lemma CheckIfElse(s: Stmt, f: Stmt, stale: set<string>, c: Checked, d: Checked)
    requires s.If? && s.elseBranch == Some(f) && c == Check(s.thenBranch, stale) && d == Check(f, c.stale)
    ensures Check(s, stale) == AlsoOk(Uses(s.cond) !! stale && c.ok, d)
  {
  }

  lemma WalkIfElse(s: Stmt, f: Stmt, g: Gen, scopes: Frames, w: Walked, v: Walked)
    requires s.If? && s.elseBranch == Some(f) && scopes != []
    requires w == Walk(s.thenBranch, ThenHead(s.cond, true, g), scopes) &&
      v == Walk(f, AtElse(s.cond, s.thenBranch, g), w.scopes)
    ensures Walk(s, g, scopes) == Also(Agrees(Uses(s.cond), g.slots, scopes) && w.agrees, v)
  {
  }

  lemma {:induction false} ElseTogether(f: Stmt, at: Gen, h: Gen, scopes: Frames, stale: set<string>)
    requires Exact(at, scopes, stale) && Quiet(GenStmt(f, at), h)
    ensures Together(Walk(f, at, scopes), h, Check(f, stale))
    decreases f, 3
  {
    StmtTogether(f, at, scopes, stale);
    ExactQuiet(GenStmt(f, at), h, Walk(f, at, scopes).scopes, Check(f, stale).stale);
  }

  lemma {:induction false} LoopTogether(c: Expr, body: Stmt, ls: LoopLabels, g: Gen, scopes: Frames, stale: set<string>)
    requires Exact(g, scopes, stale)
    ensures Together(WalkLoop(c, body, ls, g, scopes), GenLoop(c, body, ls, g),
                     AlsoOk(Uses(c) !! stale, Check(body, stale)))
    decreases body, 3
  {
    var at := AtLoop(c, ls, g);
    AgreesExactly(Uses(c), g, scopes, stale);
    QuietLoop(c, ls, g);
    ExactQuiet(g, at, scopes, stale);
    StmtTogether(body, at, scopes, stale);
    ExactQuiet(GenStmt(body, at), GenLoop(c, body, ls, g), Walk(body, at, scopes).scopes, Check(body, stale).stale);
  }

  lemma {:induction false} CountedTogether(s: Stmt, g: Gen, scopes: Frames, stale: set<string>)
    requires s.Vloop? && s.cond.IntLit? && Exact(g, scopes, stale)
    ensures Together(Walk(s, g, scopes), GenStmt(s, g), Check(s, stale))
    decreases s, 1
  {
    var at := AtCounted(s.cond.value, g);
    QuietCounted(s.cond.value, g);
    ExactQuiet(g, at, scopes, stale);
    StmtTogether(s.body, at, scopes, stale);
    ExactQuiet(GenStmt(s.body, at), GenStmt(s, g), Walk(s.body, at, scopes).scopes, Check(s.body, stale).stale);
  }

  lemma ForStart(x: string, iterable: Expr, g: Gen, scopes: Frames, stale: set<string>, inner: Frames)
    requires Exact(g, scopes, stale) && inner == ForScope(x, g, scopes)
    ensures Agrees(Uses(iterable), WithNext(x, g), inner) <==> Uses(iterable) !! (stale - {x})
    ensures Exact(ForHead(x, iterable, g), inner, stale - {x})
  {
    var bound := Bind(Build(g, Alloca, [], x).g, x, g.regs + 1);
    ExactBind(g, bound, scopes, stale, x, inner);
    AgreesExactly(Uses(iterable), bound, inner, stale - {x});
    ForHeadBinds(x, iterable, g);
    ExactBind(g, ForHead(x, iterable, g), scopes, stale, x, inner);
  }

  lemma {:induction false} ForBody(x: string, body: Stmt, at: Gen, inner: Frames, scopes: Frames, stale: set<string>)
    requires scopes != [] && |inner| == |scopes| + 1 && inner[..|scopes|] == scopes && Exact(at, inner, stale - {x})
    ensures Leave(Walk(body, at, inner)).scopes == scopes
    ensures Walk(body, at, inner).agrees <==> Check(body, stale - {x}).ok
    decreases body, 3
  {
    StmtTogether(body, at, inner, stale - {x});
  }

  lemma {:induction false} ForTogether(s: Stmt, g: Gen, scopes: Frames, stale: set<string>)
    requires s.For? && Exact(g, scopes, stale)
    ensures Together(Walk(s, g, scopes), GenStmt(s, g), Check(s, stale))
    decreases s, 1
  {
    var For(x, iterable, body) := s;
    var inner := ForScope(x, g, scopes);
    var at := ForHead(x, iterable, g);
    ForStart(x, iterable, g, scopes, stale, inner);
    ForBody(x, body, at, inner, scopes, stale);
    StmtVisits(s, g);
    ExactLeave(g, GenStmt(s, g), scopes, stale, Binds(s));
  }

  lemma {:induction false} MatchTogether(s: Stmt, g: Gen, scopes: Frames, stale: set<string>)
    requires s.Match? && Exact(g, scopes, stale)
    ensures Together(Walk(s, g, scopes), GenStmt(s, g), Check(s, stale))
    decreases s, 1
  {
    var x := GenExpr(s.subject, g);
    var exit := MakeLabel(MatchExit, x.g.labels);
    var at := TakeLabels(x.g, 1);
    AgreesExactly(Uses(s.subject), g, scopes, stale);
    QuietExpr(s.subject, g);
    ExactQuiet(g, at, scopes, stale);
    ArmsTogether(s.arms, x.reg, exit, at, scopes, stale);
    ExactQuiet(GenArms(s.arms, x.reg, exit, at), GenStmt(s, g), WalkArms(s.arms, x.reg, exit, at, scopes).scopes,
               CheckArms(s.arms, stale).stale);
  }

  lemma {:induction false} ArmTogether(arms: seq<MatchArm>, subject: RegID, exit: string, g: Gen, scopes: Frames,
                                       stale: set<string>)
    requires arms != [] && Exact(g, scopes, stale)
    ensures Agrees(UsesOf(arms[0].pattern), g.slots, scopes) <==> UsesOf(arms[0].pattern) !! stale
    ensures var at := AtArm(arms[0], subject, |arms| == 1, exit, g);
            Together(Walk(arms[0].body, at, scopes), GenStmt(arms[0].body, at), Check(arms[0].body, stale))
    decreases arms, 0
  {
    assert (arms decreases to arms[0]) && (arms[0] decreases to arms[0].body);
    var at := AtArm(arms[0], subject, |arms| == 1, exit, g);
    AgreesExactly(UsesOf(arms[0].pattern), g, scopes, stale);
    QuietArm(arms, subject, exit, g);
    ExactQuiet(g, at, scopes, stale);
    StmtTogether(arms[0].body, at, scopes, stale);
  }

  lemma {:induction false} ArmsTogether(arms: seq<MatchArm>, subject: RegID, exit: string, g: Gen, scopes: Frames,
                                        stale: set<string>)
    requires Exact(g, scopes, stale)
    ensures Together(WalkArms(arms, subject, exit, g, scopes), GenArms(arms, subject, exit, g), CheckArms(arms, stale))
    decreases arms, 1
  {
    if arms != [] {
      var h := GenStmt(arms[0].body, AtArm(arms[0], subject, |arms| == 1, exit, g));
      var w := Walk(arms[0].body, AtArm(arms[0], subject, |arms| == 1, exit, g), scopes);
      var c := Check(arms[0].body, stale);
      ArmTogether(arms, subject, exit, g, scopes, stale);
      ArmsUnfold(arms, subject, exit, g);
      if arms[0].pattern.None? {
        ExactQuiet(h, BranchIfOpen(h, exit), w.scopes, c.stale);
      } else {
        var next := AfterArm(arms, subject, exit, g);
        ExactQuiet(h, next, w.scopes, c.stale);
        ArmsTogether(arms[1..], subject, exit, next, w.scopes, c.stale);
      }
    }
  }

  // Functions.

  ghost function ParamFrame(params: seq<string>, g: Gen, frame: map<string, RegID>): map<string, RegID>
    decreases params
  {
    if params == [] then frame
    else ParamFrame(params[1..], GenParam(params[0], 0, g), frame[params[0] := g.regs + 1])
  }

  lemma {:induction false} ParamsExact(params: seq<string>, i: nat, g: Gen, frame: map<string, RegID>)
    requires Exact(g, [frame], {})
    ensures Exact(GenParams(params, i, g), [ParamFrame(params, g, frame)], {})
    decreases params
  {
    if params != [] {
      var x := params[0];
      var after := [frame[x := g.regs + 1]];
      assert after == Declare([frame], x, g.regs + 1);
      var h, k := GenParam(x, i, g), GenParam(x, 0, g);
      ExactBind(g, h, [frame], {}, x, after);
      ParamsExact(params[1..], i + 1, h, after[0]);
      FrameSame(params[1..], h, k, after[0]);
    }
  }

  lemma {:induction false} FrameSame(params: seq<string>, g: Gen, h: Gen, frame: map<string, RegID>)
    requires g.regs == h.regs
    ensures ParamFrame(params, g, frame) == ParamFrame(params, h, frame)
    decreases params
  {
    if params != [] {
      FrameSame(params[1..], GenParam(params[0], 0, g), GenParam(params[0], 0, h), frame[params[0] := g.regs + 1]);
    }
  }

  // At every use in the body the flat map has the slot of the declaration that a search
  // from the innermost scope outward finds.
  ghost predicate SlotsAgree(f: FunctionDecl) {
    f.body.Some? ==> Walk(f.body.value, GenParams(f.params, 0, EMPTY), [ParamFrame(f.params, EMPTY, map[])]).agrees
  }

  // No name is used where it is stale.
  ghost predicate NoStaleUse(f: FunctionDecl) {
    f.body.Some? ==> Check(f.body.value, {}).ok
  }

  lemma SlotsAgreeIffNoStaleUse(f: FunctionDecl)
    ensures SlotsAgree(f) <==> NoStaleUse(f)
  {
    if f.body.Some? {
      var frame: map<string, RegID> := map[];
      forall x ensures Same(EMPTY.slots, [frame], x) {
        assert DepthBelow([frame], x, 0) == -1;
      }
      ParamsExact(f.params, 0, EMPTY, frame);
      StmtTogether(f.body.value, GenParams(f.params, 0, EMPTY), [ParamFrame(f.params, EMPTY, frame)], {});
    }
  }

  // A program without shadowing: a name is declared only where no declaration of it is
  // visible, and used only where one is.

  ghost predicate Resolved(names: set<string>, visible: set<string>) {
    names <= visible
  }

  datatype Scoped = Scoped(ok: bool, visible: set<string>)

  ghost function Plainly(s: Stmt, visible: set<string>): Scoped
    decreases s, 0
  {
    match s
    case Block(ss) => Scoped(PlainlyAll(ss, visible).ok, visible)
    case ExprStmt(e) => Scoped(Resolved(Uses(e), visible), visible)
    case VarDecl(_, x, init) => Scoped(x !in visible && Resolved(UsesOf(init), visible), visible + {x})
    case Return(result) => Scoped(Resolved(UsesOf(result), visible), visible)
    case If(c, t, None) => AlsoPlain(Resolved(Uses(c), visible), Plainly(t, visible))
    case If(c, t, Some(f)) =>
      var r := Plainly(t, visible);
      AlsoPlain(Resolved(Uses(c), visible) && r.ok, Plainly(f, r.visible))
    case While(c, body) => AlsoPlain(Resolved(Uses(c), visible), Plainly(body, visible))
    case Vloop(c, body) => AlsoPlain(Resolved(Uses(c), visible), Plainly(body, visible))
    case For(x, iterable, body) =>
      Scoped(x !in visible && Resolved(Uses(iterable), visible + {x}) && Plainly(body, visible + {x}).ok, visible)
    case Break => Scoped(true, visible)
    case Continue => Scoped(true, visible)
    case Match(subject, arms) => AlsoPlain(Resolved(Uses(subject), visible), PlainlyArms(arms, visible))
  }

  ghost function AlsoPlain(ok: bool, r: Scoped): Scoped {
    r.(ok := ok && r.ok)
  }

  ghost function PlainlyAll(ss: seq<Stmt>, visible: set<string>): Scoped
    decreases ss, 0
  {
    if ss == [] then Scoped(true, visible)
    else
      var r := Plainly(ss[0], visible);
      AlsoPlain(r.ok, PlainlyAll(ss[1..], r.visible))
  }

  ghost function PlainlyArms(arms: seq<MatchArm>, visible: set<string>): Scoped
    decreases arms, 0
  {
    if arms == [] then Scoped(true, visible)
    else
      assert (arms decreases to arms[0]) && (arms[0] decreases to arms[0].body);
      var r := AlsoPlain(Resolved(UsesOf(arms[0].pattern), visible), Plainly(arms[0].body, visible));
      if arms[0].pattern.None? then r else AlsoPlain(r.ok, PlainlyArms(arms[1..], r.visible))
  }

  // Visible names are not stale, and what a statement binds was not visible before it.
  ghost predicate Clean(r: Scoped, c: Checked, bound: set<string>, visible: set<string>) {
    c.ok && c.stale !! r.visible && bound !! visible && visible <= r.visible
  }

  lemma {:induction false} PlainStmt(s: Stmt, visible: set<string>, stale: set<string>)
    requires Plainly(s, visible).ok && stale !! visible
    ensures Clean(Plainly(s, visible), Check(s, stale), Binds(s), visible)
    decreases s, 1
  {
    match s
    case Block(ss) => PlainStmts(ss, visible, stale);
    case If(_, t, other) =>
      PlainStmt(t, visible, stale);
      if other.Some? {
        PlainStmt(other.value, Plainly(t, visible).visible, Check(t, stale).stale);
      }
    case While(_, body) => PlainStmt(body, visible, stale);
    case Vloop(_, body) => PlainStmt(body, visible, stale);
    case For(x, _, body) => PlainStmt(body, visible + {x}, stale - {x});
    case Match(_, arms) => PlainArms(arms, visible, stale);
    case _ =>
  }

  lemma {:induction false} PlainStmts(ss: seq<Stmt>, visible: set<string>, stale: set<string>)
    requires PlainlyAll(ss, visible).ok && stale !! visible
    ensures Clean(PlainlyAll(ss, visible), CheckAll(ss, stale), BindsIn(ss), visible)
    decreases ss, 0
  {
    if ss != [] {
      PlainStmt(ss[0], visible, stale);
      PlainStmts(ss[1..], Plainly(ss[0], visible).visible, Check(ss[0], stale).stale);
    }
  }

  lemma {:induction false} PlainArms(arms: seq<MatchArm>, visible: set<string>, stale: set<string>)
    requires PlainlyArms(arms, visible).ok && stale !! visible
    ensures Clean(PlainlyArms(arms, visible), CheckArms(arms, stale), BindsInArms(arms), visible)
    decreases arms, 0
  {
    if arms != [] {
      assert (arms decreases to arms[0]) && (arms[0] decreases to arms[0].body);
      PlainStmt(arms[0].body, visible, stale);
      if arms[0].pattern.Some? {
        PlainArms(arms[1..], Plainly(arms[0].body, visible).visible, Check(arms[0].body, stale).stale);
      }
    }
  }

  // Without shadowing the two always agree, even where sibling blocks reuse a name.
  lemma PlainProgramsAgree(f: FunctionDecl)
    requires f.body.Some? ==> Plainly(f.body.value, set x | x in f.params).ok
    ensures SlotsAgree(f)
  {
    if f.body.Some? {
      PlainStmt(f.body.value, set x | x in f.params, {});
    }
    SlotsAgreeIffNoStaleUse(f);
  }

  // var x = 1; { var x = 2; } return x; reads the slot of the inner x.
  lemma ShadowedUseDisagrees(x: string)
    requires !IsBareCall(x)
    ensures !SlotsAgree(FunctionDecl("f", [], Some(Block([
              VarDecl(Var, x, Some(IntLit(1))), Block([VarDecl(Var, x, Some(IntLit(2)))]), Return(Some(Ident(x)))]))))
  {
    var one, inner, last := VarDecl(Var, x, Some(IntLit(1))), Block([VarDecl(Var, x, Some(IntLit(2)))]),
      Return(Some(Ident(x)));
    var body := Block([one, inner, last]);
    SlotsAgreeIffNoStaleUse(FunctionDecl("f", [], Some(body)));
    StaleAfter(x, one, inner, last);
  }

  lemma StaleAfter(x: string, one: Stmt, inner: Stmt, last: Stmt)
    requires one.VarDecl? && inner == Block([VarDecl(Var, x, Some(IntLit(2)))]) && last == Return(Some(Ident(x)))
    requires !IsBareCall(x)
    ensures !Check(Block([one, inner, last]), {}).ok
  {
    var all := [one, inner, last];
    assert all[1..] == [inner, last] && [inner, last][1..] == [last];
    var s1 := Check(one, {}).stale;
    assert BindsIn([VarDecl(Var, x, Some(IntLit(2)))]) == {x} + BindsIn([]);
    assert x in Check(inner, s1).stale;
    assert Uses(Ident(x)) == {x} && !Check(last, Check(inner, s1).stale).ok;
    assert !CheckAll([last], Check(inner, s1).stale).ok;
    assert !CheckAll([inner, last], s1).ok;
  }
}
