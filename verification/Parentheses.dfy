// The parentheses the printer adds are needed: without a pair the parser reads another tree.
module Parentheses {
  import Ast
  import opened Tokens
  import opened Grammar
  import opened Printing
  import opened TextReader
  import opened RoundTrip
  import PrattLayers

  // The primary expression that the text of an expression begins with.

  function Head(e: Expr): Expr
    decreases e, 0
  {
    match e
    case Call(f, _) => HeadOfBase(f)
    case Index(b, _) => HeadOfBase(b)
    case Member(o, _) => HeadOfBase(o)
    case Cast(x, _) => HeadOfBase(x)
    case AssignExpr(_, t, _) => HeadOfBase(t)
    case Binary(op, l, _) => if Fits(l, OpLevel(op) - 1, false) then Head(l) else l
    case _ => e
  }

  function HeadOfBase(e: Expr): Expr
    decreases e, 1
  {
    if IsPrimary(e) || IsPostfixed(e) then Head(e) else e
  }

  lemma {:induction false} HeadIsPart(e: Expr)
    ensures IsPrimary(e) || (e decreases to Head(e))
    ensures IsPrimary(e) ==> Head(e) == e
    decreases e
  {
    match e
    case Call(f, _) => HeadIsPart(f);
    case Index(b, _) => HeadIsPart(b);
    case Member(o, _) => HeadIsPart(o);
    case Cast(x, _) => HeadIsPart(x);
    case AssignExpr(_, t, _) => HeadIsPart(t);
    case Binary(_, l, _) => HeadIsPart(l);
    case _ =>
  }

  lemma HeadDiffers(e: Expr)
    requires !IsPrimary(e)
    ensures Head(e) != e
  {
    HeadIsPart(e);
  }

  lemma {:induction false} HeadReads(w: Text, c: Cursor, e: Expr, last: bool)
    requires Writable(e) && Stands(w, c.pos, w.bare(e, last)) && (e.AssignExpr? ==> last)
    ensures w.primary(c).v == Head(e)
    decreases e, 1
  {
    if e.Binary? {
      BinaryForm(w, e, last);
      HoldsParts(w, c.pos, w.whole(e.lhs, OpLevel(e.op) - 1, false) + [Tok(InfixKind(e.op))],
                 w.whole(e.rhs, OpLevel(e.op), last));
      HoldsParts(w, c.pos, w.whole(e.lhs, OpLevel(e.op) - 1, false), [Tok(InfixKind(e.op))]);
      LeftHeadReads(w, c, e.lhs, OpLevel(e.op) - 1);
    } else if e.AssignExpr? {
      AssignForm(w, e);
      HoldsParts(w, c.pos, w.post(e.target) + [Tok(AssignKind(e.aop))], w.whole(e.rvalue, 0, true));
      HoldsParts(w, c.pos, w.post(e.target), [Tok(AssignKind(e.aop))]);
      BaseHeadReads(w, c, e.target);
    } else {
      SameBare(w, e, last);
      SimpleHeadReads(w, c, e);
    }
  }

  lemma SameBare(w: Text, e: Expr, last: bool)
    requires Writable(e) && !e.Binary?
    ensures w.bare(e, last) == w.bare(e, true)
  {
    assert BareText(e, last) == BareText(e, true);
  }

  lemma {:induction false} SimpleHeadReads(w: Text, c: Cursor, e: Expr)
    requires Writable(e) && !e.Binary? && !e.AssignExpr? && Stands(w, c.pos, w.bare(e, true))
    ensures w.primary(c).v == Head(e)
    decreases e, 0
  {
    match e
    case Call(f, args) =>
      CallForm(w, e);
      HoldsParts(w, c.pos, w.post(f) + [Tok(LParen)] + w.list(args), [Tok(RParen)]);
      HoldsParts(w, c.pos, w.post(f) + [Tok(LParen)], w.list(args));
      HoldsParts(w, c.pos, w.post(f), [Tok(LParen)]);
      BaseHeadReads(w, c, f);
    case Index(b, i) =>
      IndexForm(w, e);
      HoldsParts(w, c.pos, w.post(b) + [Tok(LBracket)] + w.whole(i, 0, true), [Tok(RBracket)]);
      HoldsParts(w, c.pos, w.post(b) + [Tok(LBracket)], w.whole(i, 0, true));
      HoldsParts(w, c.pos, w.post(b), [Tok(LBracket)]);
      BaseHeadReads(w, c, b);
    case Member(o, field) =>
      MemberForm(w, e);
      HoldsParts(w, c.pos, w.post(o) + [Tok(Dot)], [Token(Identifier, field, 0)]);
      HoldsParts(w, c.pos, w.post(o), [Tok(Dot)]);
      BaseHeadReads(w, c, o);
    case Cast(x, t) =>
      CastForm(w, e);
      HoldsParts(w, c.pos, w.post(x) + [Tok(KwAs)], w.typeText(t));
      HoldsParts(w, c.pos, w.post(x), [Tok(KwAs)]);
      BaseHeadReads(w, c, x);
    case _ => BarePrimaryReads(w, c, e);
  }

  lemma {:induction false} BaseHeadReads(w: Text, c: Cursor, e: Expr)
    requires Writable(e) && Stands(w, c.pos, w.post(e))
    ensures w.primary(c).v == HeadOfBase(e)
    decreases e, 2
  {
    PostForm(w, e);
    if IsPrimary(e) || IsPostfixed(e) {
      HeadReads(w, c, e, true);
    } else {
      PrimForm(w, e);
      PrimaryReads(w, c, e);
    }
  }

  lemma {:induction false} LeftHeadReads(w: Text, c: Cursor, e: Expr, level: nat)
    requires Writable(e) && Stands(w, c.pos, w.whole(e, level, false))
    ensures w.primary(c).v == if Fits(e, level, false) then Head(e) else e
    decreases e, 3
  {
    WholeForm(w, e, level, false);
    if !e.Binary? && !e.AssignExpr? {
      BaseHeadReads(w, c, e);
    } else if Fits(e, level, false) {
      HeadReads(w, c, e, false);
    } else {
      PrimForm(w, e);
      PrimaryReads(w, c, e);
    }
  }

  // The left spine of a tree: the tree, its left operand, and so on.

  predicate OnSpine(t: Expr, y: Expr) {
    t == y || (t.Binary? && OnSpine(t.lhs, y))
  }

  function SpineLength(e: Expr): nat {
    if e.Binary? then 1 + SpineLength(e.lhs) else 0
  }

  lemma {:induction false} SpineShorter(t: Expr, y: Expr)
    requires OnSpine(t, y)
    ensures SpineLength(y) <= SpineLength(t)
    decreases t
  {
    if t != y {
      SpineShorter(t.lhs, y);
    }
  }

  lemma {:induction false} SpineTrans(t: Expr, y: Expr, z: Expr)
    requires OnSpine(t, y) && OnSpine(y, z)
    ensures OnSpine(t, z)
    decreases t
  {
    if t != y {
      SpineTrans(t.lhs, y, z);
    }
  }

  // The first operator the loop reads joins its left operand, on the spine of the result.
  lemma {:induction false} LoopJoins(ts: Stream, c: Cursor, min: nat, lhs: Expr) returns (y: Expr)
    requires In(ts, c) && PrattLayers.EndsAt(ts, c, 10) && min < Precedence(Current(ts, c))
    ensures OnSpine(Loop(ts, c, min, lhs).v, y) && y.Binary? && y.lhs == lhs && y.op == InfixOp(Current(ts, c))
    ensures Loop(ts, c, min, lhs).v.Binary?
    decreases Left(ts, c)
  {
    var p := Precedence(Current(ts, c));
    var rhs := Climb(ts, Advance(ts, c), p);
    PrattLayers.LoopStep(ts, c, min, lhs, rhs);
    y := Ast.Binary(InfixOp(Current(ts, c)), lhs, rhs.v);
    if min < Precedence(Current(ts, rhs.c)) {
      var z := LoopJoins(ts, rhs.c, min, y);
      assert OnSpine(z, y);
      SpineTrans(Loop(ts, rhs.c, min, y).v, z, y);
    }
  }

  lemma InfixLevel(k: Kind)
    requires Precedence(k) > 0
    ensures OpLevel(InfixOp(k)) == Precedence(k)
  {
  }

  // An operand a, then the operator op: the tree is a joined by op with what follows, or a
  // tree with a deeper on its left side, under an operator that binds no tighter than op.
  lemma AfterOperator(ts: Stream, c: Cursor, a: Expr, op: Ast.BinaryOp, root: Ast.BinaryOp, l: Expr, r: Expr)
    requires c.pos + 1 < |ts| && ts[c.pos] == Tok(InfixKind(op)) && Loop(ts, c, 0, a).v == Ast.Binary(root, l, r)
    ensures (root == op && l == a && r == Climb(ts, Move(c, 1), OpLevel(op)).v)
         || (SpineLength(l) > SpineLength(a) && (SpineLength(l) == 1 + SpineLength(a) ==> OpLevel(root) <= OpLevel(op)))
  {
    InfixBack(op);
    var rhs := Climb(ts, Move(c, 1), OpLevel(op));
    PrattLayers.LoopStep(ts, c, 0, a, rhs);
    var both := Ast.Binary(op, a, rhs.v);
    if 0 < Precedence(Current(ts, rhs.c)) {
      var y := LoopJoins(ts, rhs.c, 0, both);
      InfixLevel(Current(ts, rhs.c));
      if y != Ast.Binary(root, l, r) {
        SpineShorter(l, y);
      }
    }
  }

  // What can be at the root of a tree.

  lemma {:induction false} PostfixShape(ts: Stream, c: Cursor, x: Expr)
    requires In(ts, c)
    ensures var y := Postfix(Pratt, ts, c, x).v;
            y == x || IsPostfixed(y)
    decreases Left(ts, c)
  {
    if StartsPostfix(Current(ts, c)) {
      var y := OnePostfix(Pratt, ts, c, x);
      PostfixShape(ts, y.c, y.v);
    }
  }

  lemma {:induction false} LoopShape(ts: Stream, c: Cursor, min: nat, lhs: Expr)
    requires In(ts, c) && PrattLayers.EndsAt(ts, c, 10)
    ensures var z := Loop(ts, c, min, lhs).v;
            z == lhs || (z.Binary? && OpLevel(z.op) > min)
    decreases Left(ts, c)
  {
    var p := Precedence(Current(ts, c));
    if min < p {
      var rhs := Climb(ts, Advance(ts, c), p);
      PrattLayers.LoopStep(ts, c, min, lhs, rhs);
      InfixLevel(Current(ts, c));
      LoopShape(ts, rhs.c, min, Ast.Binary(InfixOp(Current(ts, c)), lhs, rhs.v));
    }
  }

  lemma ClimbShape(ts: Stream, c: Cursor, min: nat)
    requires In(ts, c)
    ensures var z := Climb(ts, c, min).v;
            z == Primary(Pratt, ts, c).v || IsPostfixed(z) || z.AssignExpr? || (z.Binary? && OpLevel(z.op) > min)
  {
    var x := Primary(Pratt, ts, c);
    var y := Postfix(Pratt, ts, x.c, x.v);
    PostfixShape(ts, x.c, x.v);
    PrattLayers.PostfixEnds(Pratt, ts, x.c, x.v);
    if AssignmentOp(Current(ts, y.c)).None? {
      LoopShape(ts, y.c, min, y.v);
    }
  }

  // Nothing read at the text of e is e itself, where e is no primary expression and its
  // operator binds no tighter than min.
  lemma NotRead(w: Text, c: Cursor, e: Expr, min: nat)
    requires Writable(e) && Stands(w, c.pos, w.bare(e, true)) && e.Binary? && OpLevel(e.op) <= min
    ensures Climb(w.ts, c, min).v != e
  {
    HeadReads(w, c, e, true);
    HeadDiffers(e);
    assert PrimaryAt(w.ts, c) == Primary(Pratt, w.ts, c);
    ClimbShape(w.ts, c, min);
  }

  // The text of an assignment takes in what follows it.
  lemma AssignSwallows(w: Text, c: Cursor, e: Expr, min: nat)
    requires Writable(e) && e.AssignExpr? && Stands(w, c.pos, w.bare(e, true))
    ensures var z := Climb(w.ts, c, min);
            z.v.AssignExpr? && z.v.target == e.target && PrattLayers.EndsAt(w.ts, z.c, 0)
  {
    var t := w.post(e.target);
    AssignForm(w, e);
    HoldsBetween(w, c.pos, t, Tok(AssignKind(e.aop)), w.whole(e.rvalue, 0, true));
    AssignBack(e.aop);
    PostfixedReads(w, c, e.target);
    PostfixStops(w, Move(c, |t|), e.target);
    AssignEnds(w, c, min, e.aop, e.target, Move(c, |t|));
  }

  lemma AssignEnds(w: Text, c: Cursor, min: nat, op: Ast.AssignOp, t: Expr, d: Cursor)
    requires In(w.ts, c) && d.pos + 1 < |w.ts| && Current(w.ts, d) == AssignKind(op)
    requires w.postfix(w.primary(c).c, w.primary(c).v) == Parsed(t, d)
    ensures var z := Climb(w.ts, c, min);
            z.v.AssignExpr? && z.v.target == t && PrattLayers.EndsAt(w.ts, z.c, 0)
  {
    var v := Climb(w.ts, Move(d, 1), 0);
    assert ClimbAt(w.ts, Move(d, 1), 0) == v;
    AssignStep(w, c, min, op, t, v.v, d, v.c);
    assert ClimbAt(w.ts, c, min) == Climb(w.ts, c, min);
    PrattLayers.ClimbEnds(w.ts, Move(d, 1), 0);
  }

  // The left operand of an operator, up to that operator.
  lemma LeftReads(w: Text, start: Cursor, a: Expr, op: Ast.BinaryOp)
    requires Writable(a) && Stands(w, start.pos, w.whole(a, OpLevel(op) - 1, false))
    requires start.pos + |w.whole(a, OpLevel(op) - 1, false)| + 1 < |w.ts|
    requires w.ts[start.pos + |w.whole(a, OpLevel(op) - 1, false)|] == Tok(InfixKind(op))
    ensures w.climb(start, 0) == w.loop(Move(start, |w.whole(a, OpLevel(op) - 1, false)|), 0, a)
  {
    InfixBack(op);
    ExprReads(w, start, a, OpLevel(op) - 1, false, 0);
  }

  lemma ClimbLoops(w: Text, start: Cursor, c: Cursor, a: Expr)
    requires In(w.ts, start) && In(w.ts, c) && w.climb(start, 0) == w.loop(c, 0, a)
    ensures Climb(w.ts, start, 0) == Loop(w.ts, c, 0, a)
  {
    assert ClimbAt(w.ts, start, 0) == Climb(w.ts, start, 0);
    assert LoopAt(w.ts, c, 0, a) == Loop(w.ts, c, 0, a);
  }

  // The text of a binary expression: its left operand, then its operator.
  lemma BinaryStart(w: Text, start: Cursor, e: Expr) returns (c: Cursor)
    requires Writable(e) && e.Binary? && Stands(w, start.pos, w.bare(e, true))
    ensures c.pos + 1 < |w.ts| && w.ts[c.pos] == Tok(InfixKind(e.op)) &&
      Climb(w.ts, start, 0) == Loop(w.ts, c, 0, e.lhs)
  {
    var s := w.whole(e.lhs, OpLevel(e.op) - 1, false);
    BinaryForm(w, e, true);
    HoldsBetween(w, start.pos, s, Tok(InfixKind(e.op)), w.whole(e.rhs, OpLevel(e.op), true));
    LeftReads(w, start, e.lhs, e.op);
    c := Move(start, |s|);
    ClimbLoops(w, start, c, e.lhs);
  }

  // A text, with whatever may follow it.
  lemma TextStands(w: Text, s: seq<Token>, rest: seq<Token>)
    requires rest != [] && w.ts == s + rest
    ensures Stands(w, 0, s)
  {
    assert Holds(w.ts, 0, s);
  }

  lemma BareIs(w: Text, e: Expr)
    requires Writable(e)
    ensures w.bare(e, true) == Bare(e, true)
  {
    assert BareText(e, true) == Bare(e, true);
  }

  ghost predicate Ended(rest: seq<Token>) {
    rest != [] && rest[|rest| - 1].kind.Eof?
  }

  // The texts without parentheses.

  // A left operand whose operator binds less tightly.
  lemma LeftParensNeeded(op: Ast.BinaryOp, l: Expr, r: Expr, rest: seq<Token>)
    requires Writable(l) && l.Binary? && !Fits(l, OpLevel(op) - 1, false) && Ended(rest)
    ensures Climb(Bare(l, true) + rest, Cursor(0, []), 0).v != Ast.Binary(op, l, r)
  {
    var w := Reading(Bare(l, true) + rest);
    BareIs(w, l);
    TextStands(w, Bare(l, true), rest);
    var c := BinaryStart(w, Cursor(0, []), l);
    if Climb(w.ts, Cursor(0, []), 0).v == Ast.Binary(op, l, r) {
      AfterOperator(w.ts, c, l.lhs, l.op, op, l, r);
    }
  }

  // A right operand whose operator binds no tighter.
  lemma RightParensNeeded(op: Ast.BinaryOp, l: Expr, r: Expr, rest: seq<Token>)
    requires Writable(l) && Writable(r) && r.Binary? && !Fits(r, OpLevel(op), true) && Ended(rest)
    ensures var text := Print(l, OpLevel(op) - 1, false) + [Tok(InfixKind(op))] + Bare(r, true);
            Climb(text + rest, Cursor(0, []), 0).v != Ast.Binary(op, l, r)
  {
    var s, b := Print(l, OpLevel(op) - 1, false), Bare(r, true);
    var w := Reading(s + [Tok(InfixKind(op))] + b + rest);
    WholeTextIs(w, l, OpLevel(op) - 1, s);
    BareIs(w, r);
    TextStands(w, s + [Tok(InfixKind(op))] + b, rest);
    RightStands(w, op, l, r, s, b);
  }

  lemma RightStands(w: Text, op: Ast.BinaryOp, l: Expr, r: Expr, s: seq<Token>, b: seq<Token>)
    requires Writable(l) && s == w.whole(l, OpLevel(op) - 1, false) && b != [] && b == w.bare(r, true)
    requires Writable(r) && r.Binary? && OpLevel(r.op) <= OpLevel(op) && Stands(w, 0, s + [Tok(InfixKind(op))] + b)
    ensures Climb(w.ts, Cursor(0, []), 0).v != Ast.Binary(op, l, r)
  {
    var c := RightStart(w, op, l, s, b);
    ClimbLoops(w, Cursor(0, []), c, l);
    RightNotRead(w, c, op, l, r);
  }

  lemma RightNotRead(w: Text, c: Cursor, op: Ast.BinaryOp, l: Expr, r: Expr)
    requires c.pos + 1 < |w.ts| && w.ts[c.pos] == Tok(InfixKind(op)) && Stands(w, c.pos + 1, w.bare(r, true))
    requires Writable(r) && r.Binary? && OpLevel(r.op) <= OpLevel(op)
    ensures Loop(w.ts, c, 0, l).v != Ast.Binary(op, l, r)
  {
    NotRead(w, Move(c, 1), r, OpLevel(op));
    OtherRight(w.ts, c, op, l, r);
  }

  lemma OtherRight(ts: Stream, c: Cursor, op: Ast.BinaryOp, l: Expr, r: Expr)
    requires c.pos + 1 < |ts| && ts[c.pos] == Tok(InfixKind(op)) && Climb(ts, Move(c, 1), OpLevel(op)).v != r
    ensures Loop(ts, c, 0, l).v != Ast.Binary(op, l, r)
  {
    if Loop(ts, c, 0, l).v == Ast.Binary(op, l, r) {
      AfterOperator(ts, c, l, op, op, l, r);
    }
  }

  lemma RightStart(w: Text, op: Ast.BinaryOp, l: Expr, s: seq<Token>, b: seq<Token>) returns (c: Cursor)
    requires Writable(l) && s == w.whole(l, OpLevel(op) - 1, false) && b != []
    requires Stands(w, 0, s + [Tok(InfixKind(op))] + b)
    ensures c.pos + 1 < |w.ts| && w.ts[c.pos] == Tok(InfixKind(op)) && Stands(w, c.pos + 1, b)
    ensures w.climb(Cursor(0, []), 0) == w.loop(c, 0, l)
  {
    var start := Cursor(0, []);
    c := Move(start, |s|);
    HoldsBetween(w, 0, s, Tok(InfixKind(op)), b);
    LeftReads(w, start, l, op);
  }

  lemma WholeTextIs(w: Text, e: Expr, level: nat, s: seq<Token>)
    requires Writable(e) && s == Print(e, level, false)
    ensures w.whole(e, level, false) == s
  {
    assert WholeText(e, level, false) == s;
  }

  // An assignment as a right operand, where another operator follows.
  lemma AssignedOperandParensNeeded(op: Ast.BinaryOp, l: Expr, a: Expr, root: Ast.BinaryOp, r: Expr, rest: seq<Token>)
    requires Writable(l) && Writable(a) && a.AssignExpr? && Ended(rest)
    ensures var text := Print(l, OpLevel(op) - 1, false) + [Tok(InfixKind(op))] + Bare(a, true);
            Climb(text + rest, Cursor(0, []), 0).v != Ast.Binary(root, Ast.Binary(op, l, a), r)
  {
    var s, b := Print(l, OpLevel(op) - 1, false), Bare(a, true);
    var w := Reading(s + [Tok(InfixKind(op))] + b + rest);
    WholeTextIs(w, l, OpLevel(op) - 1, s);
    BareIs(w, a);
    TextStands(w, s + [Tok(InfixKind(op))] + b, rest);
    var c := RightStart(w, op, l, s, b);
    ClimbLoops(w, Cursor(0, []), c, l);
    Swallowed(w, c, op, l, a);
    assert SpineLength(Ast.Binary(op, l, a)) == 1 + SpineLength(l);
  }

  lemma Swallowed(w: Text, c: Cursor, op: Ast.BinaryOp, l: Expr, a: Expr)
    requires Writable(a) && a.AssignExpr? && c.pos + 1 < |w.ts| && w.ts[c.pos] == Tok(InfixKind(op))
    requires Stands(w, c.pos + 1, w.bare(a, true))
    ensures var z := Loop(w.ts, c, 0, l).v;
            z.Binary? && z.lhs == l
  {
    InfixBack(op);
    AssignSwallows(w, Move(c, 1), a, OpLevel(op));
    PrattLayers.LoopStep(w.ts, c, 0, l, Climb(w.ts, Move(c, 1), OpLevel(op)));
  }

  // What looks like the base of a postfix, the target of an assignment or, if it is an
  // assignment, a left operand, is not: the tree has another root or another target.
  lemma BaseParensNeeded(e: Expr, rest: seq<Token>)
    requires Writable(e) && !IsPrimary(e) && !IsPostfixed(e) && Ended(rest)
    ensures var z := Climb(Bare(e, true) + rest, Cursor(0, []), 0).v;
            if e.Binary? then z.Binary? else z.AssignExpr? && z.target == e.target
  {
    var w := Reading(Bare(e, true) + rest);
    BareIs(w, e);
    TextStands(w, Bare(e, true), rest);
    if e.Binary? {
      var c := BinaryStart(w, Cursor(0, []), e);
      InfixBack(e.op);
      var _ := LoopJoins(w.ts, c, 0, e.lhs);
    } else {
      AssignSwallows(w, Cursor(0, []), e, 0);
    }
  }

  // An operand of a prefix operator that is not primary: the operator takes its first
  // primary expression only.
  lemma PrefixParensNeeded(op: Ast.UnaryOp, x: Expr, rest: seq<Token>)
    requires Writable(x) && !IsPrimary(x) && Ended(rest)
    ensures Climb([Tok(PrefixKind(op))] + Bare(x, true) + rest, Cursor(0, []), 0).v != Ast.Unary(op, x)
  {
    var w := Reading([Tok(PrefixKind(op))] + Bare(x, true) + rest);
    BareIs(w, x);
    TextStands(w, [Tok(PrefixKind(op))] + Bare(x, true), rest);
    HoldsParts(w, 0, [Tok(PrefixKind(op))], Bare(x, true));
    HoldsOne(w, 0, Tok(PrefixKind(op)));
    PrefixTakesHead(w, op, x);
  }

  lemma PrefixTakesHead(w: Text, op: Ast.UnaryOp, x: Expr)
    requires Writable(x) && !IsPrimary(x) && |w.ts| > 1 && w.ts[0] == Tok(PrefixKind(op)) &&
      Stands(w, 1, w.bare(x, true))
    ensures Climb(w.ts, Cursor(0, []), 0).v != Ast.Unary(op, x)
  {
    var start := Cursor(0, []);
    PrefixBack(op);
    HeadReads(w, Move(start, 1), x, true);
    HeadDiffers(x);
    PrefixStep(w, start, op, Head(x), w.primary(Move(start, 1)).c);
    assert PrimaryAt(w.ts, start) == Primary(Pratt, w.ts, start);
    ClimbShape(w.ts, start, 0);
  }
}
