// Parsing a written expression gives the expression back.
module RoundTrip {
  import Ast
  import opened Tokens
  import opened Grammar
  import opened Printing
  import opened TextReader

  // Reading an operand at c comes to looking for postfixes of e at d.
  ghost predicate Continues(w: Text, c: Cursor, d: Cursor, e: Expr) {
    w.postfix(w.primary(c).c, w.primary(c).v) == w.postfix(d, e)
  }

  // Primary expressions.

  lemma {:induction false} PrimaryReads(w: Text, c: Cursor, e: Expr)
    requires Writable(e) && Stands(w, c.pos, w.prim(e))
    ensures w.primary(c) == Parsed(e, Move(c, |w.prim(e)|))
    decreases e, 4
  {
    PrimForm(w, e);
    if IsPrimary(e) {
      BarePrimaryReads(w, c, e);
    } else if IsPostfixed(e) {
      ParensPostfixedRead(w, c, e);
    } else {
      ParensRead(w, c, e);
    }
  }

  lemma {:induction false} BarePrimaryReads(w: Text, c: Cursor, e: Expr)
    requires Writable(e) && IsPrimary(e) && Stands(w, c.pos, w.bare(e, true))
    ensures w.primary(c) == Parsed(e, Move(c, |w.bare(e, true)|))
    decreases e, 3
  {
    if e.Unary? {
      UnaryForm(w, e);
      HoldsParts(w, c.pos, [Tok(PrefixKind(e.uop))], w.prim(e.operand));
      HoldsOne(w, c.pos, Tok(PrefixKind(e.uop)));
      PrimaryReads(w, Move(c, 1), e.operand);
      PrefixStep(w, c, e.uop, e.operand, Move(c, 1 + |w.prim(e.operand)|));
    } else if e.ArrayLit? {
      ArrayReads(w, c, e);
    } else {
      LiteralForm(w, e);
      HoldsOne(w, c.pos, LiteralToken(e));
      LiteralStep(w, c, e);
    }
  }

  lemma {:induction false} ArrayReads(w: Text, c: Cursor, e: Expr)
    requires e.ArrayLit? && Writable(e) && Stands(w, c.pos, w.bare(e, true))
    ensures w.primary(c) == Parsed(e, Move(c, |w.bare(e, true)|))
    decreases e, 2
  {
    var s := w.list(e.elements);
    ArrayForm(w, e);
    HoldsParts(w, c.pos, [Tok(KwArray), Tok(LBracket)] + s, [Tok(RBracket)]);
    HoldsTwo(w, c.pos, Tok(KwArray), Tok(LBracket), s);
    HoldsOne(w, c.pos + 2 + |s|, Tok(RBracket));
    ItemsRead(w, Move(c, 2), e.elements, RBracket);
    ArrayStep(w, c, e.elements, Move(c, 2 + |s|));
  }

  lemma {:induction false} ParensRead(w: Text, c: Cursor, e: Expr)
    requires Writable(e) && (e.Binary? || e.AssignExpr?) && Stands(w, c.pos, Parens(w.bare(e, true)))
    ensures w.primary(c) == Parsed(e, Move(c, |Parens(w.bare(e, true))|))
    decreases e, 2
  {
    var s := w.bare(e, true);
    HoldsAround(w, c.pos, Tok(LParen), s, Tok(RParen));
    ClosesAll(w.ts, Move(c, 1 + |s|));
    OperatorReads(w, Move(c, 1), e, 0, true, 0);
    LoopStops(w, Move(c, 1 + |s|), 0, e);
    ParensStep(w, c, e, Move(c, 1 + |s|));
  }

  lemma {:induction false} ParensPostfixedRead(w: Text, c: Cursor, e: Expr)
    requires Writable(e) && IsPostfixed(e) && Stands(w, c.pos, Parens(w.bare(e, true)))
    ensures w.primary(c) == Parsed(e, Move(c, |Parens(w.bare(e, true))|))
    decreases e, 3, 1
  {
    var s := w.bare(e, true);
    HoldsAround(w, c.pos, Tok(LParen), s, Tok(RParen));
    ClosesAll(w.ts, Move(c, 1 + |s|));
    OnePostfixReads(w, Move(c, 1), e);
    PostfixStops(w, Move(c, 1 + |s|), e);
    OperandStep(w, Move(c, 1), 0, e, Move(c, 1 + |s|));
    LoopStops(w, Move(c, 1 + |s|), 0, e);
    ParensStep(w, c, e, Move(c, 1 + |s|));
  }

  // Postfixes.

  lemma {:induction false} PostfixedReads(w: Text, c: Cursor, e: Expr)
    requires Writable(e) && Stands(w, c.pos, w.post(e))
    requires EndsType(Current(w.ts, Move(c, |w.post(e)|)))
    ensures Continues(w, c, Move(c, |w.post(e)|), e)
    decreases e, 4
  {
    PostForm(w, e);
    if IsPrimary(e) {
      BarePrimaryReads(w, c, e);
    } else if IsPostfixed(e) {
      OnePostfixReads(w, c, e);
    } else {
      ParensRead(w, c, e);
    }
  }

  lemma {:induction false} OnePostfixReads(w: Text, c: Cursor, e: Expr)
    requires Writable(e) && IsPostfixed(e) && Stands(w, c.pos, w.bare(e, true))
    requires EndsType(Current(w.ts, Move(c, |w.bare(e, true)|)))
    ensures Continues(w, c, Move(c, |w.bare(e, true)|), e)
    decreases e, 3, 0
  {
    match e
    case Call(_, _) => CallReads(w, c, e);
    case Index(_, _) => IndexReads(w, c, e);
    case Member(_, _) => MemberReads(w, c, e);
    case Cast(_, _) => CastReads(w, c, e);
  }

  lemma {:induction false} CallReads(w: Text, c: Cursor, e: Expr)
    requires e.Call? && Writable(e) && Stands(w, c.pos, w.bare(e, true)) &&
      EndsType(Current(w.ts, Move(c, |w.bare(e, true)|)))
    ensures Continues(w, c, Move(c, |w.bare(e, true)|), e)
    decreases e, 2
  {
    CallForm(w, e);
    HoldsCall(w, c.pos, w.post(e.callee), Tok(LParen), w.list(e.args), Tok(RParen));
    PostfixedReads(w, c, e.callee);
    CallTail(w, Move(c, |w.post(e.callee)|), e.callee, e.args);
  }

  lemma {:induction false} IndexReads(w: Text, c: Cursor, e: Expr)
    requires e.Index? && Writable(e) && Stands(w, c.pos, w.bare(e, true)) &&
      EndsType(Current(w.ts, Move(c, |w.bare(e, true)|)))
    ensures Continues(w, c, Move(c, |w.bare(e, true)|), e)
    decreases e, 2
  {
    IndexForm(w, e);
    HoldsCall(w, c.pos, w.post(e.base), Tok(LBracket), w.whole(e.index, 0, true), Tok(RBracket));
    PostfixedReads(w, c, e.base);
    IndexTail(w, Move(c, |w.post(e.base)|), e.base, e.index);
  }

  lemma {:induction false} CastReads(w: Text, c: Cursor, e: Expr)
    requires e.Cast? && Writable(e) && Stands(w, c.pos, w.bare(e, true)) &&
      EndsType(Current(w.ts, Move(c, |w.bare(e, true)|)))
    ensures Continues(w, c, Move(c, |w.bare(e, true)|), e)
    decreases e, 2
  {
    CastForm(w, e);
    HoldsBetween(w, c.pos, w.post(e.inner), Tok(KwAs), w.typeText(e.ty));
    PostfixedReads(w, c, e.inner);
    CastTail(w, Move(c, |w.post(e.inner)|), e.inner, e.ty);
  }

  lemma {:induction false} MemberReads(w: Text, c: Cursor, e: Expr)
    requires e.Member? && Writable(e) && Stands(w, c.pos, w.bare(e, true))
    ensures Continues(w, c, Move(c, |w.bare(e, true)|), e)
    decreases e, 2
  {
    var name := [Token(Identifier, e.field, 0)];
    MemberForm(w, e);
    HoldsBetween(w, c.pos, w.post(e.object_), Tok(Dot), name);
    HoldsFirst(w, c.pos + |w.post(e.object_)| + 1, name);
    PostfixedReads(w, c, e.object_);
    MemberStep(w, Move(c, |w.post(e.object_)|), e.object_, e.field);
  }

  // From the token that starts a postfix.

  lemma {:induction false} CastTail(w: Text, c: Cursor, x: Expr, t: Ast.TypeNode)
    requires WritableType(t) && In(w.ts, c) && w.ts[c.pos] == Tok(KwAs)
    requires Stands(w, c.pos + 1, w.typeText(t)) && EndsType(Current(w.ts, Move(c, 1 + |w.typeText(t)|)))
    ensures w.postfix(c, x) == w.postfix(Move(c, 1 + |w.typeText(t)|), Ast.Cast(x, t))
    decreases t, 9
  {
    TypeReads(w, Move(c, 1), t);
    CastStep(w, c, x, t, Move(c, 1 + |w.typeText(t)|));
  }

  lemma {:induction false} CallTail(w: Text, c: Cursor, f: Expr, args: seq<Expr>)
    requires WritableAll(args) && In(w.ts, c) && w.ts[c.pos] == Tok(LParen) && Stands(w, c.pos + 1, w.list(args))
    requires c.pos + |w.list(args)| + 2 < |w.ts| && w.ts[c.pos + 1 + |w.list(args)|] == Tok(RParen)
    ensures w.postfix(c, f) == w.postfix(Move(c, |w.list(args)| + 2), Ast.Call(f, args))
    decreases args, 2
  {
    ItemsRead(w, Move(c, 1), args, RParen);
    CallStep(w, c, f, args, Move(c, 1 + |w.list(args)|));
  }

  lemma {:induction false} IndexTail(w: Text, c: Cursor, b: Expr, i: Expr)
    requires Writable(i) && In(w.ts, c) && w.ts[c.pos] == Tok(LBracket) && Stands(w, c.pos + 1, w.whole(i, 0, true))
    requires c.pos + |w.whole(i, 0, true)| + 2 < |w.ts| && w.ts[c.pos + 1 + |w.whole(i, 0, true)|] == Tok(RBracket)
    ensures w.postfix(c, b) == w.postfix(Move(c, |w.whole(i, 0, true)| + 2), Ast.Index(b, i))
    decreases i, 9
  {
    ClosedReads(w, Move(c, 1), i);
    IndexStep(w, c, b, i, Move(c, 1 + |w.whole(i, 0, true)|));
  }

  // Bracketed lists and whole expressions.

  lemma {:induction false} WholeReads(w: Text, c: Cursor, e: Expr)
    requires Writable(e) && Stands(w, c.pos, w.whole(e, 0, true))
    requires Ends(w.ts, Move(c, |w.whole(e, 0, true)|), 0)
    ensures w.climb(c, 0) == Parsed(e, Move(c, |w.whole(e, 0, true)|))
    decreases e, 7
  {
    ExprReads(w, c, e, 0, true, 0);
    LoopStops(w, Move(c, |w.whole(e, 0, true)|), 0, e);
  }

  lemma {:induction false} ClosedReads(w: Text, c: Cursor, e: Expr)
    requires Writable(e) && Stands(w, c.pos, w.whole(e, 0, true))
    requires Current(w.ts, Move(c, |w.whole(e, 0, true)|)) in {RParen, RBracket, Comma, Semicolon, Kind.Eof}
    ensures w.climb(c, 0) == Parsed(e, Move(c, |w.whole(e, 0, true)|))
    decreases e, 8
  {
    ClosesAll(w.ts, Move(c, |w.whole(e, 0, true)|));
    WholeReads(w, c, e);
  }

  lemma {:induction false} ItemsRead(w: Text, c: Cursor, es: seq<Expr>, close: Kind)
    requires WritableAll(es) && Stands(w, c.pos, w.list(es)) && close in {RParen, RBracket}
    requires Current(w.ts, Move(c, |w.list(es)|)) == close
    ensures w.items(c, close) == Parsed(es, Move(c, |w.list(es)|))
    decreases es, 1
  {
    if es == [] {
      EmptyList(w);
      NoItems(w, c, close);
    } else {
      ListForm(w, es);
      HoldsFirst(w, c.pos, w.list(es));
      ItemsStep(w, c, close);
      SomeItemsRead(w, c, es, close);
    }
  }

  lemma {:induction false} SomeItemsRead(w: Text, c: Cursor, es: seq<Expr>, close: Kind)
    requires es != [] && WritableAll(es) && Stands(w, c.pos, w.list(es)) && close in {RParen, RBracket}
    requires Current(w.ts, Move(c, |w.list(es)|)) == close
    ensures w.someItems(c) == Parsed(es, Move(c, |w.list(es)|))
    decreases es, 0
  {
    var s := w.whole(es[0], 0, true);
    ListForm(w, es);
    if |es| == 1 {
      assert es == [es[0]] && s + [] == s;
      ClosedReads(w, c, es[0]);
      LastItem(w, c, es[0], Move(c, |s|));
    } else {
      var rest := w.list(es[1..]);
      CommaBetween(w, c.pos, s, rest);
      ClosedReads(w, c, es[0]);
      SomeItemsRead(w, Move(c, |s| + 1), es[1..], close);
      NextItem(w, c, es[0], Move(c, |s|), es[1..], Move(c, |s| + 1 + |rest|));
      assert es == [es[0]] + es[1..];
    }
  }

  // Operators.

  // Operators that may follow bind no tighter than this.
  function Bound(level: nat, last: bool): nat {
    if last then 0 else level + 1
  }

  lemma {:induction false} ExprReads(w: Text, c: Cursor, e: Expr, level: nat, last: bool, min: nat)
    requires Writable(e) && min <= level && Stands(w, c.pos, w.whole(e, level, last))
    requires Ends(w.ts, Move(c, |w.whole(e, level, last)|), Bound(level, last))
    ensures w.climb(c, min) == w.loop(Move(c, |w.whole(e, level, last)|), min, e)
    decreases e, 6
  {
    WholeForm(w, e, level, last);
    if e.Binary? || e.AssignExpr? {
      if Fits(e, level, last) {
        OperatorReads(w, c, e, level, last, min);
      } else {
        var d := Move(c, |w.whole(e, level, last)|);
        ParensRead(w, c, e);
        PostfixStops(w, d, e);
        OperandStep(w, c, min, e, d);
      }
    } else {
      var d := Move(c, |w.whole(e, level, last)|);
      PostfixedReads(w, c, e);
      PostfixStops(w, d, e);
      OperandStep(w, c, min, e, d);
    }
  }

  lemma {:induction false} OperatorReads(w: Text, c: Cursor, e: Expr, level: nat, last: bool, min: nat)
    requires Writable(e) && (e.Binary? || e.AssignExpr?) && Fits(e, level, last) && min <= level
    requires Stands(w, c.pos, w.bare(e, last)) && Ends(w.ts, Move(c, |w.bare(e, last)|), Bound(level, last))
    ensures w.climb(c, min) == w.loop(Move(c, |w.bare(e, last)|), min, e)
    decreases e, 1
  {
    if e.Binary? {
      BinaryReads(w, c, e, level, last, min);
    } else {
      AssignReads(w, c, e, min);
    }
  }

  lemma {:induction false} BinaryReads(w: Text, c: Cursor, e: Expr, level: nat, last: bool, min: nat)
    requires Writable(e) && e.Binary? && OpLevel(e.op) > level && min <= level
    requires Stands(w, c.pos, w.bare(e, last)) && Ends(w.ts, Move(c, |w.bare(e, last)|), Bound(level, last))
    ensures w.climb(c, min) == w.loop(Move(c, |w.bare(e, last)|), min, e)
    decreases e, 0
  {
    var p := OpLevel(e.op);
    var a, b := w.whole(e.lhs, p - 1, false), w.whole(e.rhs, p, last);
    BinaryForm(w, e, last);
    HoldsBetween(w, c.pos, a, Tok(InfixKind(e.op)), b);
    InfixBack(e.op);
    ExprReads(w, c, e.lhs, p - 1, false, min);
    RightReads(w, Move(c, |a|), e, level, last, min);
  }

  // From the operator on.
  lemma {:induction false} RightReads(w: Text, c: Cursor, e: Expr, level: nat, last: bool, min: nat)
    requires e.Binary? && Writable(e.rhs) && OpLevel(e.op) > level && min <= level && In(w.ts, c)
    requires w.ts[c.pos] == Tok(InfixKind(e.op)) && Stands(w, c.pos + 1, w.whole(e.rhs, OpLevel(e.op), last))
    requires Ends(w.ts, Move(c, 1 + |w.whole(e.rhs, OpLevel(e.op), last)|), Bound(level, last))
    ensures w.loop(c, min, e.lhs) == w.loop(Move(c, 1 + |w.whole(e.rhs, OpLevel(e.op), last)|), min, e)
    decreases e.rhs, 7
  {
    var d := Move(c, 1 + |w.whole(e.rhs, OpLevel(e.op), last)|);
    ExprReads(w, Move(c, 1), e.rhs, OpLevel(e.op), last, OpLevel(e.op));
    LoopStops(w, d, OpLevel(e.op), e.rhs);
    LoopStep(w, c, min, e.op, e.lhs, e.rhs, d);
  }

  lemma {:induction false} AssignReads(w: Text, c: Cursor, e: Expr, min: nat)
    requires Writable(e) && e.AssignExpr? && Stands(w, c.pos, w.bare(e, true)) &&
      Ends(w.ts, Move(c, |w.bare(e, true)|), 0)
    ensures w.climb(c, min) == w.loop(Move(c, |w.bare(e, true)|), min, e)
    decreases e, 0
  {
    var a, b := w.post(e.target), w.whole(e.rvalue, 0, true);
    var d := Move(c, |a| + 1 + |b|);
    AssignForm(w, e);
    HoldsBetween(w, c.pos, a, Tok(AssignKind(e.aop)), b);
    AssignBack(e.aop);
    PostfixedReads(w, c, e.target);
    PostfixStops(w, Move(c, |a|), e.target);
    WholeReads(w, Move(c, |a| + 1), e.rvalue);
    AssignStep(w, c, min, e.aop, e.target, e.rvalue, Move(c, |a|), d);
    LoopStops(w, d, min, e);
  }

  // Types.

  lemma {:induction false} TypeReads(w: Text, c: Cursor, t: Ast.TypeNode)
    requires WritableType(t) && Stands(w, c.pos, w.typeText(t)) && EndsType(Current(w.ts, Move(c, |w.typeText(t)|)))
    ensures w.typ(c) == Parsed(t, Move(c, |w.typeText(t)|))
    decreases t, 8
  {
    if t.NamedType? {
      TypeForm(w, t);
      HoldsOne(w, c.pos, Token(Identifier, t.path, 0));
      NamedStep(w, c, t.path);
    } else if t.PointerType? {
      TypeForm(w, t);
      PointerReads(w, c, t.pointee, t.isMut, t);
    } else if t.SliceType? {
      SliceReads(w, c, t);
    } else if t.ArrayType? {
      SizedReads(w, c, t);
    } else {
      FunctionTypeReads(w, c, t);
    }
  }

  lemma {:induction false} SliceReads(w: Text, c: Cursor, t: Ast.TypeNode)
    requires t.SliceType? && WritableType(t) && Stands(w, c.pos, w.typeText(t))
    ensures w.typ(c) == Parsed(t, Move(c, |w.typeText(t)|))
    decreases t, 7
  {
    TypeForm(w, t);
    HoldsAround(w, c.pos, Tok(LBracket), w.typeText(t.element), Tok(RBracket));
    TypeReads(w, Move(c, 1), t.element);
    SliceStep(w, c, t.element, Move(c, 1 + |w.typeText(t.element)|));
  }

  lemma {:induction false} PointerReads(w: Text, c: Cursor, p: Ast.TypeNode, isMut: bool, t: Ast.TypeNode)
    requires t == Ast.PointerType(p, isMut) && WritableType(p)
    requires Stands(w, c.pos, (if isMut then [Tok(Star), Tok(KwMut)] else [Tok(Star)]) + w.typeText(p))
    requires EndsType(Current(w.ts, Move(c, |w.typeText(p)| + if isMut then 2 else 1)))
    ensures w.typ(c) == Parsed(t, Move(c, |w.typeText(p)| + if isMut then 2 else 1))
    decreases t, 7
  {
    if isMut {
      MutPointerReads(w, c, p, t);
    } else {
      PlainPointerReads(w, c, p, t);
    }
  }

  lemma {:induction false} MutPointerReads(w: Text, c: Cursor, p: Ast.TypeNode, t: Ast.TypeNode)
    requires t == Ast.PointerType(p, true) && WritableType(p)
    requires Stands(w, c.pos, [Tok(Star), Tok(KwMut)] + w.typeText(p))
    requires EndsType(Current(w.ts, Move(c, |w.typeText(p)| + 2)))
    ensures w.typ(c) == Parsed(t, Move(c, |w.typeText(p)| + 2))
    decreases t, 6
  {
    HoldsTwo(w, c.pos, Tok(Star), Tok(KwMut), w.typeText(p));
    TypeReads(w, Move(c, 2), p);
    MutPointerStep(w, c, p, Move(c, 2 + |w.typeText(p)|));
  }

  lemma {:induction false} PlainPointerReads(w: Text, c: Cursor, p: Ast.TypeNode, t: Ast.TypeNode)
    requires t == Ast.PointerType(p, false) && WritableType(p)
    requires Stands(w, c.pos, [Tok(Star)] + w.typeText(p))
    requires EndsType(Current(w.ts, Move(c, |w.typeText(p)| + 1)))
    ensures w.typ(c) == Parsed(t, Move(c, |w.typeText(p)| + 1))
    decreases t, 6
  {
    var s := w.typeText(p);
    TypeForm(w, p);
    HoldsParts(w, c.pos, [Tok(Star)], s);
    HoldsOne(w, c.pos, Tok(Star));
    HoldsFirst(w, c.pos + 1, s);
    TypeReads(w, Move(c, 1), p);
    PointerStep(w, c, p, Move(c, 1 + |s|));
  }

  lemma {:induction false} SizedReads(w: Text, c: Cursor, t: Ast.TypeNode)
    requires t.ArrayType? && WritableType(t) && Stands(w, c.pos, w.typeText(t))
    ensures w.typ(c) == Parsed(t, Move(c, |w.typeText(t)|))
    decreases t, 7
  {
    SizedForm(w, t);
    SizedPartsRead(w, c, t, w.typeText(t.element), w.whole(t.size, 0, true));
  }

  lemma {:induction false} SizedPartsRead(w: Text, c: Cursor, t: Ast.TypeNode, a: seq<Token>, b: seq<Token>)
    requires t.ArrayType? && WritableType(t.element) && Writable(t.size)
    requires a == w.typeText(t.element) && b == w.whole(t.size, 0, true)
    requires Stands(w, c.pos, [Tok(LBracket)] + a + [Tok(Semicolon)] + b + [Tok(RBracket)])
    ensures w.typ(c) == Parsed(t, Move(c, |a| + |b| + 3))
    decreases t, 6
  {
    HoldsSized(w, c.pos, a, b);
    TypeReads(w, Move(c, 1), t.element);
    SizeTail(w, c, t.element, t.size, Move(c, 1 + |a|));
  }

  // The element type is read; d is at the semicolon.
  lemma {:induction false} SizeTail(w: Text, c: Cursor, e: Ast.TypeNode, size: Expr, d: Cursor)
    requires c.pos + 1 < |w.ts| && Current(w.ts, c).LBracket? && w.typ(Move(c, 1)) == Parsed(e, d)
    requires In(w.ts, d) && w.ts[d.pos] == Tok(Semicolon) && Writable(size) &&
      Stands(w, d.pos + 1, w.whole(size, 0, true))
    requires d.pos + |w.whole(size, 0, true)| + 2 < |w.ts| &&
      w.ts[d.pos + 1 + |w.whole(size, 0, true)|] == Tok(RBracket)
    ensures w.typ(c) == Parsed(Ast.ArrayType(e, size), Move(d, |w.whole(size, 0, true)| + 2))
    decreases size, 9
  {
    ClosedReads(w, Move(d, 1), size);
    SizedStep(w, c, e, size, d, Move(d, 1 + |w.whole(size, 0, true)|));
  }

  lemma {:induction false} FunctionTypeReads(w: Text, c: Cursor, t: Ast.TypeNode)
    requires t.FunctionType? && WritableType(t)
    requires Stands(w, c.pos, w.typeText(t)) && EndsType(Current(w.ts, Move(c, |w.typeText(t)|)))
    ensures w.typ(c) == Parsed(t, Move(c, |w.typeText(t)|))
    decreases t, 7
  {
    var s := w.typesText(t.params);
    var head := [Tok(KwFn), Tok(LParen)] + s;
    FunctionForm(w, t);
    match t.ret
    case None =>
      HoldsParts(w, c.pos, head, [Tok(RParen)]);
      HoldsOne(w, c.pos + 2 + |s|, Tok(RParen));
      SignatureReads(w, c, t.params);
      FunctionStep(w, c, t.params, Move(c, 2 + |s|));
    case Some(r) =>
      HoldsParts(w, c.pos, head, [Tok(RParen), Tok(Arrow)] + w.typeText(r));
      HoldsTwo(w, c.pos + 2 + |s|, Tok(RParen), Tok(Arrow), w.typeText(r));
      SignatureReads(w, c, t.params);
      TypeReads(w, Move(c, 4 + |s|), r);
      FunctionArrowStep(w, c, t.params, Move(c, 2 + |s|), r, Move(c, 4 + |s| + |w.typeText(r)|));
  }

  lemma {:induction false} SignatureReads(w: Text, c: Cursor, params: seq<Ast.TypeNode>)
    requires WritableTypes(params) && Stands(w, c.pos, [Tok(KwFn), Tok(LParen)] + w.typesText(params))
    requires w.ts[c.pos + 2 + |w.typesText(params)|] == Tok(RParen)
    ensures Signature(w, c, params, Move(c, 2 + |w.typesText(params)|))
    decreases params, 2
  {
    HoldsTwo(w, c.pos, Tok(KwFn), Tok(LParen), w.typesText(params));
    if params == [] {
      NoTypes(w);
    } else {
      TypesForm(w, params);
      HoldsFirst(w, c.pos + 2, w.typesText(params));
      TypesRead(w, Move(c, 2), params);
    }
  }

  lemma {:induction false} TypesRead(w: Text, c: Cursor, params: seq<Ast.TypeNode>)
    requires params != [] && WritableTypes(params) && Stands(w, c.pos, w.typesText(params))
    requires Current(w.ts, Move(c, |w.typesText(params)|)).RParen?
    ensures w.types(c) == Parsed(params, Move(c, |w.typesText(params)|))
    decreases params, 1
  {
    var s := w.typeText(params[0]);
    TypesForm(w, params);
    if |params| == 1 {
      assert params == [params[0]] && s + [] == s;
      TypeReads(w, c, params[0]);
      LastType(w, c, params[0], Move(c, |s|));
    } else {
      MoreTypesRead(w, c, params, s, w.typesText(params[1..]));
    }
  }

  lemma {:induction false} MoreTypesRead(w: Text, c: Cursor, params: seq<Ast.TypeNode>, s: seq<Token>, rest: seq<Token>)
    requires |params| > 1 && WritableType(params[0]) && WritableTypes(params[1..])
    requires s == w.typeText(params[0]) && rest == w.typesText(params[1..]) &&
      Stands(w, c.pos, s + ([Tok(Comma)] + rest))
    requires Current(w.ts, Move(c, |s| + 1 + |rest|)).RParen?
    ensures w.types(c) == Parsed(params, Move(c, |s| + 1 + |rest|))
    decreases params, 0
  {
    var d := Move(c, |s| + 1 + |rest|);
    CommaBetween(w, c.pos, s, rest);
    TypeReads(w, c, params[0]);
    TypesRead(w, Move(c, |s| + 1), params[1..]);
    NextType(w, c, params[0], Move(c, |s|), params[1..], d);
    assert [params[0]] + params[1..] == params;
  }

  // Parsing the written form of a tree gives that tree, uses up every token and reports
  // nothing.
  lemma ParseWritten(e: Expr)
    requires Writable(e)
    ensures Climb(Written(e), Cursor(0, []), 0) == Parsed(e, Cursor(|Written(e)| - 1, []))
  {
    var w := Reading(Written(e));
    var s := Print(e, 0, true);
    assert Holds(w.ts, 0, s) && WholeText(e, 0, true) == s;
    ClosesAll(w.ts, Cursor(|s|, []));
    WholeReads(w, Cursor(0, []), e);
    assert ClimbAt(w.ts, Cursor(0, []), 0) == Climb(w.ts, Cursor(0, []), 0);
  }

  // No two trees are written the same way.
  lemma WrittenDiffer(e: Expr, f: Expr)
    requires Writable(e) && Writable(f) && Written(e) == Written(f)
    ensures e == f
  {
    ParseWritten(e);
    ParseWritten(f);
  }
}
