// IRGen keeps one flat map from names to stack slots and never takes an entry back. This
// module compares it, use by use, with a stack of scopes searched from the innermost
// outward, and finds exactly the programs in which the two always agree.
module SlotScopes {
  import opened Common
  import opened Ast
  import opened Ir
  import opened Labels
  import opened ScopeStack
  import opened Codegen
  import opened CodegenFrame

  type Frames = seq<map<string, RegID>>

  // The two maps give x the same slot, or both none.
  ghost predicate Same(slots: map<string, RegID>, scopes: Frames, x: string) {
    (if x in slots then Some(slots[x]) else None) == Lookup(scopes, x)
  }

  // The names whose slot is looked up while an expression is lowered.
  ghost function Uses(e: Expr): set<string>
    decreases e, 0
  {
    match e
    case Ident(x) => if IsBareCall(x) then {} else {x}
    case Binary(_, l, r) => Uses(l) + Uses(r)
    case Unary(_, x) => Uses(x)
    case AssignExpr(op, target, value) =>
      Uses(value) + (if target.Ident? then {target.name} else {}) + (if op.Assign? then {} else Uses(target))
    case Call(callee, args) => (if callee.Ident? then {} else Uses(callee)) + UsesIn(args)
    case Index(base, index) => Uses(base) + Uses(index)
    case Member(obj, _) => Uses(obj)
    case Cast(x, _) => Uses(x)
    case ArrayLit(es) => UsesIn(es)
    case _ => {}
  }

  ghost function UsesIn(es: seq<Expr>): set<string>
    decreases es, 0
  {
    if es == [] then {} else Uses(es[0]) + UsesIn(es[1..])
  }

  ghost function UsesOf(e: Option<Expr>): set<string> {
    match e
    case None => {}
    case Some(x) => Uses(x)
  }

  // All names used agree.
  ghost predicate Agrees(names: set<string>, slots: map<string, RegID>, scopes: Frames) {
    forall x :: x in names ==> Same(slots, scopes, x)
  }

  // Do the uses in a statement agree, and what are the scopes after it? The walk follows
  // the lowering from state to state.
  datatype Walked = Walked(agrees: bool, scopes: Frames)

  // Entering and leaving a scope around a statement leaves the scopes outside as they were.
  ghost predicate Around(before: Frames, after: Frames) {
    before != [] && |after| == |before| && after[..|after| - 1] == before[..|before| - 1]
  }

  ghost function Leave(w: Walked): Walked
    requires w.scopes != []
  {
    w.(scopes := w.scopes[..|w.scopes| - 1])
  }

  ghost function Also(ok: bool, w: Walked): Walked {
    w.(agrees := ok && w.agrees)
  }

  // x bound to the next register.
  ghost function WithNext(x: string, g: Gen): map<string, RegID> {
    g.slots[x := g.regs + 1]
  }

  ghost function ForScope(x: string, g: Gen, scopes: Frames): Frames {
    scopes + [map[x := g.regs + 1]]
  }

  ghost function Walk(s: Stmt, g: Gen, scopes: Frames): (w: Walked)
    requires scopes != []
    ensures Around(scopes, w.scopes)
    decreases s, 0
  {
    match s
    case Block(ss) => Leave(WalkAll(ss, g, scopes + [map[]]))
    case ExprStmt(e) => Walked(Agrees(Uses(e), g.slots, scopes), scopes)
    case VarDecl(_, x, init) =>
      Walked(Agrees(UsesOf(init), WithNext(x, g), scopes), Declare(scopes, x, g.regs + 1))
    case Return(result) => Walked(Agrees(UsesOf(result), g.slots, scopes), scopes)
    case If(c, t, None) => Also(Agrees(Uses(c), g.slots, scopes), Walk(t, ThenHead(c, false, g), scopes))
    case If(c, t, Some(f)) =>
      var w := Walk(t, ThenHead(c, true, g), scopes);
      Also(Agrees(Uses(c), g.slots, scopes) && w.agrees, Walk(f, AtElse(c, t, g), w.scopes))
    case While(c, body) => WalkLoop(c, body, WHILE_LABELS, g, scopes)
    case Vloop(c, body) =>
      if c.IntLit? then Walk(body, AtCounted(c.value, g), scopes) else WalkLoop(c, body, VLOOP_LABELS, g, scopes)
    case For(x, iterable, body) =>
      var inner := ForScope(x, g, scopes);
      Also(Agrees(Uses(iterable), WithNext(x, g), inner), Leave(Walk(body, ForHead(x, iterable, g), inner)))
    case Break => Walked(true, scopes)
    case Continue => Walked(true, scopes)
    case Match(subject, arms) =>
      var x := GenExpr(subject, g);
      Also(Agrees(Uses(subject), g.slots, scopes),
          WalkArms(arms, x.reg, MakeLabel(MatchExit, x.g.labels), TakeLabels(x.g, 1), scopes))
  }

  ghost function WalkLoop(c: Expr, body: Stmt, ls: LoopLabels, g: Gen, scopes: Frames): (w: Walked)
    requires scopes != []
    ensures Around(scopes, w.scopes)
    decreases body, 1
  {
    Also(Agrees(Uses(c), g.slots, scopes), Walk(body, AtLoop(c, ls, g), scopes))
  }

  ghost function WalkAll(ss: seq<Stmt>, g: Gen, scopes: Frames): (w: Walked)
    requires scopes != []
    ensures Around(scopes, w.scopes)
    decreases ss, 0
  {
    if ss == [] then Walked(true, scopes)
    else
      var w := Walk(ss[0], g, scopes);
      Also(w.agrees, WalkAll(ss[1..], GenStmt(ss[0], g), w.scopes))
  }

  ghost function WalkArms(arms: seq<MatchArm>, subject: RegID, exit: string, g: Gen, scopes: Frames): (w: Walked)
    requires scopes != []
    ensures Around(scopes, w.scopes)
    decreases arms, 0
  {
    if arms == [] then Walked(true, scopes)
    else
      var MatchArm(pattern, body) := arms[0];
      assert (arms decreases to arms[0]) && (arms[0] decreases to body);
      var w := Also(Agrees(UsesOf(pattern), g.slots, scopes), Walk(body, AtArm(arms[0], subject, |arms| == 1, exit, g),
                                                                   scopes));
      if pattern.None? then w
      else Also(w.agrees, WalkArms(arms[1..], subject, exit, AfterArm(arms, subject, exit, g), w.scopes))
  }

  // The states in which parts of a statement are visited.

  ghost function AtElse(c: Expr, t: Stmt, g: Gen): Gen {
    Close(GenStmt(t, ThenHead(c, true, g)), MakeLabel(Merge, IfLabels(c, g) + 2), MakeLabel(Else, IfLabels(c, g) + 1))
  }

  ghost function AtLoop(c: Expr, ls: LoopLabels, g: Gen): Gen {
    LoopHead(c, MakeLabel(ls.cond, g.labels), MakeLabel(ls.body, g.labels + 1), MakeLabel(ls.exit, g.labels + 2), g)
  }

  ghost function AtCounted(limit: int, g: Gen): Gen {
    var init := CounterInit(g);
    CounterHead(limit, init.reg, MakeLabel(VloopCond, g.labels + 1), MakeLabel(VloopBody, g.labels + 2),
                MakeLabel(VloopExit, g.labels + 3), init.g)
  }

  ghost function AfterArm(arms: seq<MatchArm>, subject: RegID, exit: string, g: Gen): Gen
    requires arms != []
  {
    Close(ArmDone(arms[0], subject, |arms| == 1, exit, g), exit, NextArm(|arms| == 1, exit, g))
  }

  // The check over the text: `stale` holds the names whose entry in the flat map has been
  // left behind by a block that declared them again.
  datatype Checked = Checked(ok: bool, stale: set<string>)

  ghost function AlsoOk(ok: bool, c: Checked): Checked {
    c.(ok := ok && c.ok)
  }

  // A block leaves the names it bound stale; a declaration makes its name current again.
  ghost function Check(s: Stmt, stale: set<string>): Checked
    decreases s, 0
  {
    match s
    case Block(ss) => Checked(CheckAll(ss, stale).ok, stale + BindsIn(ss))
    case ExprStmt(e) => Checked(Uses(e) !! stale, stale)
    case VarDecl(_, x, init) => Checked(UsesOf(init) !! (stale + {x}), stale - {x})
    case Return(result) => Checked(UsesOf(result) !! stale, stale)
    case If(c, t, None) => AlsoOk(Uses(c) !! stale, Check(t, stale))
    case If(c, t, Some(f)) =>
      var r := Check(t, stale);
      AlsoOk(Uses(c) !! stale && r.ok, Check(f, r.stale))
    case While(c, body) => AlsoOk(Uses(c) !! stale, Check(body, stale))
    case Vloop(c, body) => AlsoOk(c.IntLit? || Uses(c) !! stale, Check(body, stale))
    case For(x, iterable, body) =>
      Checked(Uses(iterable) !! (stale - {x}) && Check(body, stale - {x}).ok, stale + Binds(s))
    case Break => Checked(true, stale)
    case Continue => Checked(true, stale)
    case Match(subject, arms) => AlsoOk(Uses(subject) !! stale, CheckArms(arms, stale))
  }

  ghost function CheckAll(ss: seq<Stmt>, stale: set<string>): Checked
    decreases ss, 0
  {
    if ss == [] then Checked(true, stale)
    else
      var r := Check(ss[0], stale);
      AlsoOk(r.ok, CheckAll(ss[1..], r.stale))
  }

  ghost function CheckArms(arms: seq<MatchArm>, stale: set<string>): Checked
    decreases arms, 0
  {
    if arms == [] then Checked(true, stale)
    else
      assert (arms decreases to arms[0]) && (arms[0] decreases to arms[0].body);
      var r := AlsoOk(UsesOf(arms[0].pattern) !! stale, Check(arms[0].body, stale));
      if arms[0].pattern.None? then r else AlsoOk(r.ok, CheckArms(arms[1..], r.stale))
  }

  // What visiting does to the flat map.

  ghost predicate Quiet(g: Gen, h: Gen) {
    h.slots == g.slots && g.regs <= h.regs
  }

  lemma QuietExpr(e: Expr, g: Gen)
    ensures Quiet(g, GenExpr(e, g).g)
  {
    ExprPlain(e, g);
  }

  lemma QuietHead(c: Expr, hasElse: bool, g: Gen)
    ensures Quiet(g, ThenHead(c, hasElse, g))
  {
    QuietExpr(c, g);
  }

  lemma QuietLoop(c: Expr, ls: LoopLabels, g: Gen)
    ensures Quiet(g, AtLoop(c, ls, g))
  {
    var cond := MakeLabel(ls.cond, g.labels);
    QuietExpr(c, StartBlock(EmitBranch(TakeLabels(g, 3), cond), cond));
  }

  lemma QuietCounted(limit: int, g: Gen)
    ensures Quiet(g, AtCounted(limit, g))
  {
  }

  lemma QuietArm(arms: seq<MatchArm>, subject: RegID, exit: string, g: Gen)
    requires arms != []
    ensures Quiet(g, AtArm(arms[0], subject, |arms| == 1, exit, g))
  {
    if arms[0].pattern.Some? {
      QuietExpr(arms[0].pattern.value, TakeLabels(g, if |arms| == 1 then 1 else 2));
    }
  }
}
