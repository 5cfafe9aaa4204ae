// A token stream together with the parser and the printer at work on it: what the parser
// does at a token, and how the text of a tree is made up of the texts of its parts.
module TextReader {
  import opened Common
  import Ast
  import opened Tokens
  import opened Grammar
  import opened Printing
  import PrattLayers

  // The tokens s stand at position p.
  ghost predicate Holds(ts: Stream, p: nat, s: seq<Token>) {
    p + |s| < |ts| && ts[p..p + |s|] == s
  }

  // A stream with what stands where and what the parser reads where, kept as values so that
  // the lemmas about trees can pass them on without unfolding the parser.
  datatype Reader = Reader(
    ts: Stream,
    ghost holds: (nat, seq<Token>) -> bool,
    ghost climb: (Cursor, nat) -> Parsed<Expr>,
    ghost loop: (Cursor, nat, Expr) -> Parsed<Expr>,
    ghost primary: Cursor -> Parsed<Expr>,
    ghost postfix: (Cursor, Expr) -> Parsed<Expr>,
    ghost items: (Cursor, Kind) -> Parsed<seq<Expr>>,
    ghost someItems: Cursor -> Parsed<seq<Expr>>,
    ghost typ: Cursor -> Parsed<Ast.TypeNode>,
    ghost types: Cursor -> Parsed<seq<Ast.TypeNode>>,
    ghost whole: (Expr, nat, bool) -> seq<Token>,
    ghost prim: Expr -> seq<Token>,
    ghost post: Expr -> seq<Token>,
    ghost bare: (Expr, bool) -> seq<Token>,
    ghost list: seq<Expr> -> seq<Token>,
    ghost typeText: Ast.TypeNode -> seq<Token>,
    ghost typesText: seq<Ast.TypeNode> -> seq<Token>)

  ghost function ClimbAt(ts: Stream, c: Cursor, min: nat): Parsed<Expr> {
    if In(ts, c) then Climb(ts, c, min) else Parsed(Ast.NilLit, c)
  }

  ghost function LoopAt(ts: Stream, c: Cursor, min: nat, x: Expr): Parsed<Expr> {
    if In(ts, c) then Loop(ts, c, min, x) else Parsed(Ast.NilLit, c)
  }

  ghost function PrimaryAt(ts: Stream, c: Cursor): Parsed<Expr> {
    if In(ts, c) then Primary(Pratt, ts, c) else Parsed(Ast.NilLit, c)
  }

  ghost function PostfixAt(ts: Stream, c: Cursor, x: Expr): Parsed<Expr> {
    if In(ts, c) then Postfix(Pratt, ts, c, x) else Parsed(Ast.NilLit, c)
  }

  ghost function ItemsAt(ts: Stream, c: Cursor, close: Kind): Parsed<seq<Expr>> {
    if In(ts, c) then Items(Pratt, ts, c, close) else Parsed([], c)
  }

  ghost function SomeItemsAt(ts: Stream, c: Cursor): Parsed<seq<Expr>> {
    if In(ts, c) then SomeItems(Pratt, ts, c) else Parsed([], c)
  }

  ghost function TypeAt(ts: Stream, c: Cursor): Parsed<Ast.TypeNode> {
    if In(ts, c) then Type(Pratt, ts, c) else Parsed(Ast.NamedType(""), c)
  }

  ghost function TypesAt(ts: Stream, c: Cursor): Parsed<seq<Ast.TypeNode>> {
    if In(ts, c) then Types(Pratt, ts, c) else Parsed([], c)
  }

  ghost function WholeText(e: Expr, level: nat, last: bool): seq<Token> {
    if Writable(e) then Print(e, level, last) else []
  }

  ghost function PrimText(e: Expr): seq<Token> {
    if Writable(e) then PrintPrimary(e) else []
  }

  ghost function PostText(e: Expr): seq<Token> {
    if Writable(e) then PrintPostfixed(e) else []
  }

  ghost function BareText(e: Expr, last: bool): seq<Token> {
    if Writable(e) then Bare(e, last) else []
  }

  ghost function ListText(es: seq<Expr>): seq<Token> {
    if WritableAll(es) then PrintItems(es) else []
  }

  ghost function TypeText(t: Ast.TypeNode): seq<Token> {
    if WritableType(t) then PrintType(t) else []
  }

  ghost function TypesText(ts: seq<Ast.TypeNode>): seq<Token> {
    if WritableTypes(ts) then PrintTypes(ts) else []
  }

  ghost predicate Faithful(r: Reader) {
    && (forall p, s {:trigger Holds(r.ts, p, s)} :: r.holds(p, s) == Holds(r.ts, p, s))
    && (forall c, min {:trigger ClimbAt(r.ts, c, min)} :: r.climb(c, min) == ClimbAt(r.ts, c, min))
    && (forall c, min, x {:trigger LoopAt(r.ts, c, min, x)} :: r.loop(c, min, x) == LoopAt(r.ts, c, min, x))
    && (forall c {:trigger PrimaryAt(r.ts, c)} :: r.primary(c) == PrimaryAt(r.ts, c))
    && (forall c, x {:trigger PostfixAt(r.ts, c, x)} :: r.postfix(c, x) == PostfixAt(r.ts, c, x))
    && (forall c, k {:trigger ItemsAt(r.ts, c, k)} :: r.items(c, k) == ItemsAt(r.ts, c, k))
    && (forall c {:trigger SomeItemsAt(r.ts, c)} :: r.someItems(c) == SomeItemsAt(r.ts, c))
    && (forall c {:trigger TypeAt(r.ts, c)} :: r.typ(c) == TypeAt(r.ts, c))
    && (forall c {:trigger TypesAt(r.ts, c)} :: r.types(c) == TypesAt(r.ts, c))
    && (forall e, n, b {:trigger WholeText(e, n, b)} :: r.whole(e, n, b) == WholeText(e, n, b))
    && (forall e {:trigger PrimText(e)} :: r.prim(e) == PrimText(e))
    && (forall e {:trigger PostText(e)} :: r.post(e) == PostText(e))
    && (forall e, b {:trigger BareText(e, b)} :: r.bare(e, b) == BareText(e, b))
    && (forall es {:trigger ListText(es)} :: r.list(es) == ListText(es))
    && (forall t {:trigger TypeText(t)} :: r.typeText(t) == TypeText(t))
    && (forall ts {:trigger TypesText(ts)} :: r.typesText(ts) == TypesText(ts))
  }

  ghost function Reading(ts: Stream): (r: Reader)
    ensures r.ts == ts && Faithful(r)
  {
    Reader(ts, (p: nat, s: seq<Token>) => Holds(ts, p, s),
           (c, min: nat) => ClimbAt(ts, c, min), (c, min: nat, x) => LoopAt(ts, c, min, x), c => PrimaryAt(ts, c),
           (c, x) => PostfixAt(ts, c, x), (c, k) => ItemsAt(ts, c, k), c => SomeItemsAt(ts, c),
           c => TypeAt(ts, c), c => TypesAt(ts, c),
           (e, n: nat, b) => WholeText(e, n, b), e => PrimText(e), e => PostText(e), (e, b) => BareText(e, b),
           es => ListText(es), t => TypeText(t), us => TypesText(us))
  }

  type Text = r: Reader | Faithful(r) ghost witness Reading([Token(Kind.Eof, "", 0)])

  ghost predicate Stands(w: Text, p: nat, s: seq<Token>) {
    p + |s| < |w.ts| && w.holds(p, s)
  }

  lemma HoldsParts(w: Text, p: nat, a: seq<Token>, b: seq<Token>)
    requires Stands(w, p, a + b)
    ensures Stands(w, p, a) && Stands(w, p + |a|, b)
  {
    var s := a + b;
    var ts := w.ts;
    assert Holds(ts, p, s);
    assert ts[p..p + |s|][..|a|] == a && ts[p..p + |s|][|a|..] == b;
    assert Holds(ts, p, a) && Holds(ts, p + |a|, b);
  }

  lemma HoldsFirst(w: Text, p: nat, s: seq<Token>)
    requires Stands(w, p, s) && s != []
    ensures w.ts[p] == s[0]
  {
    assert Holds(w.ts, p, s);
    assert w.ts[p..p + |s|][0] == s[0];
  }

  lemma HoldsOne(w: Text, p: nat, t: Token)
    requires Stands(w, p, [t])
    ensures w.ts[p] == t
  {
    HoldsFirst(w, p, [t]);
  }

  // An item between two texts, and around a text.

  lemma HoldsBetween(w: Text, p: nat, a: seq<Token>, t: Token, b: seq<Token>)
    requires Stands(w, p, a + [t] + b)
    ensures Stands(w, p, a) && w.ts[p + |a|] == t && Stands(w, p + |a| + 1, b)
  {
    HoldsParts(w, p, a + [t], b);
    HoldsParts(w, p, a, [t]);
    HoldsOne(w, p + |a|, t);
  }

  lemma HoldsAround(w: Text, p: nat, t: Token, a: seq<Token>, u: Token)
    requires Stands(w, p, [t] + a + [u])
    ensures w.ts[p] == t && Stands(w, p + 1, a) && w.ts[p + 1 + |a|] == u
  {
    HoldsParts(w, p, [t] + a, [u]);
    HoldsParts(w, p, [t], a);
    HoldsOne(w, p, t);
    HoldsOne(w, p + 1 + |a|, u);
  }

  lemma HoldsCall(w: Text, p: nat, a: seq<Token>, t: Token, b: seq<Token>, u: Token)
    requires Stands(w, p, a + [t] + b + [u])
    ensures Stands(w, p, a) && w.ts[p + |a|] == t && Stands(w, p + |a| + 1, b) && w.ts[p + |a| + 1 + |b|] == u
  {
    HoldsParts(w, p, a + [t] + b, [u]);
    HoldsOne(w, p + |a| + 1 + |b|, u);
    HoldsBetween(w, p, a, t, b);
  }

  lemma HoldsTwo(w: Text, p: nat, t: Token, u: Token, a: seq<Token>)
    requires Stands(w, p, [t, u] + a)
    ensures w.ts[p] == t && w.ts[p + 1] == u && Stands(w, p + 2, a)
  {
    HoldsParts(w, p, [t, u], a);
    assert [t, u] == [t] + [u];
    HoldsParts(w, p, [t], [u]);
    HoldsOne(w, p, t);
    HoldsOne(w, p + 1, u);
  }

  function Move(c: Cursor, n: nat): Cursor {
    c.(pos := c.pos + n)
  }

  // The token after something written: it extends neither a type nor an operand of level
  // min.
  predicate Ends(ts: Stream, c: Cursor, min: nat)
    requires In(ts, c)
  {
    PrattLayers.EndsAt(ts, c, min) && EndsType(Current(ts, c))
  }

  predicate EndsType(k: Kind) {
    !k.ColonColon? && !k.Arrow?
  }

  lemma InfixBack(op: Ast.BinaryOp)
    ensures var k := InfixKind(op);
            InfixOp(k) == op && Precedence(k) == OpLevel(op) && !StartsPostfix(k) && AssignmentOp(k).None? &&
              EndsType(k) && !k.Eof?
  {
  }

  lemma PrefixBack(op: Ast.UnaryOp)
    ensures PrefixOp(PrefixKind(op)) == Some(op)
  {
  }

  lemma AssignBack(op: Ast.AssignOp)
    ensures var k := AssignKind(op);
            AssignmentOp(k) == Some(op) && !StartsPostfix(k) && EndsType(k) && !k.Eof?
  {
  }

  lemma LiteralBack(e: Expr)
    requires IsPrimary(e) && !e.ArrayLit? && !e.Unary? && Writable(e)
    ensures Literal(LiteralToken(e)) == Some(e)
    ensures PrefixOp(LiteralToken(e).kind).None? && !LiteralToken(e).kind.LParen? && !LiteralToken(e).kind.Eof?
  {
  }

  // What the first token of an expression or a type is not.
  predicate Opens(k: Kind) {
    !k.RParen? && !k.RBracket? && !k.Eof?
  }

  lemma {:induction false} BareOpens(e: Expr, last: bool)
    requires Writable(e)
    ensures Opens(Bare(e, last)[0].kind)
    decreases e, 0
  {
    match e
    case Unary(_, _) =>
    case ArrayLit(_) =>
    case Binary(op, l, r) => PrintOpens(l, OpLevel(op) - 1, false);
    case AssignExpr(_, t, _) => PostfixedOpens(t);
    case Call(f, _) => PostfixedOpens(f);
    case Index(b, _) => PostfixedOpens(b);
    case Member(o, _) => PostfixedOpens(o);
    case Cast(x, _) => PostfixedOpens(x);
    case _ =>
  }

  lemma {:induction false} PrintOpens(e: Expr, level: nat, last: bool)
    requires Writable(e)
    ensures Opens(Print(e, level, last)[0].kind)
    decreases e, 1
  {
    if Fits(e, level, last) {
      BareOpens(e, last);
    }
  }

  lemma {:induction false} PostfixedOpens(e: Expr)
    requires Writable(e)
    ensures Opens(PrintPostfixed(e)[0].kind)
    decreases e, 1
  {
    if IsPrimary(e) || IsPostfixed(e) {
      BareOpens(e, true);
    }
  }

  lemma TypeOpens(t: Ast.TypeNode)
    requires WritableType(t)
    ensures Opens(PrintType(t)[0].kind)
  {
  }

  // Where parentheses close.
  lemma ClosesAll(ts: Stream, c: Cursor)
    requires In(ts, c) && Current(ts, c) in {RParen, RBracket, Comma, Semicolon, Kind.Eof}
    ensures Ends(ts, c, 0)
  {
  }

  // What the parser does when the parts are in place.

  lemma PrefixStep(w: Text, c: Cursor, op: Ast.UnaryOp, x: Expr, d: Cursor)
    requires c.pos + 1 < |w.ts| && Current(w.ts, c) == PrefixKind(op) && w.primary(Move(c, 1)) == Parsed(x, d)
    ensures w.primary(c) == Parsed(Ast.Unary(op, x), d)
  {
    PrefixBack(op);
    assert PrimaryAt(w.ts, c) == Primary(Pratt, w.ts, c) &&
      PrimaryAt(w.ts, Move(c, 1)) == Primary(Pratt, w.ts, Move(c, 1));
  }

  lemma ParensStep(w: Text, c: Cursor, e: Expr, d: Cursor)
    requires c.pos + 1 < |w.ts| && In(w.ts, d)
    requires Current(w.ts, c).LParen? && w.climb(Move(c, 1), 0) == Parsed(e, d) && Current(w.ts, d).RParen?
    ensures w.primary(c) == Parsed(e, Move(d, 1))
  {
    assert PrimaryAt(w.ts, c) == Primary(Pratt, w.ts, c) &&
      ClimbAt(w.ts, Move(c, 1), 0) == Whole(Pratt, w.ts, Move(c, 1));
  }

  lemma ArrayStep(w: Text, c: Cursor, es: seq<Expr>, d: Cursor)
    requires c.pos + 2 < |w.ts| && In(w.ts, d) && Current(w.ts, c).KwArray? && Current(w.ts, Move(c, 1)).LBracket?
    requires w.items(Move(c, 2), RBracket) == Parsed(es, d) && Current(w.ts, d).RBracket?
    ensures w.primary(c) == Parsed(Ast.ArrayLit(es), Move(d, 1))
  {
    assert PrimaryAt(w.ts, c) == Primary(Pratt, w.ts, c);
    assert ItemsAt(w.ts, Move(c, 2), RBracket) == Items(Pratt, w.ts, Move(c, 2), RBracket);
  }

  lemma LiteralStep(w: Text, c: Cursor, e: Expr)
    requires IsPrimary(e) && !e.ArrayLit? && !e.Unary? && Writable(e) && In(w.ts, c) && w.ts[c.pos] == LiteralToken(e)
    ensures w.primary(c) == Parsed(e, Move(c, 1))
  {
    LiteralBack(e);
    assert PrimaryAt(w.ts, c) == Primary(Pratt, w.ts, c);
  }

  lemma CallStep(w: Text, c: Cursor, f: Expr, args: seq<Expr>, d: Cursor)
    requires c.pos + 1 < |w.ts| && d.pos + 1 < |w.ts| && Current(w.ts, c).LParen?
    requires w.items(Move(c, 1), RParen) == Parsed(args, d) && Current(w.ts, d).RParen?
    ensures w.postfix(c, f) == w.postfix(Move(d, 1), Ast.Call(f, args))
  {
    var next := Move(c, 1);
    assert ItemsAt(w.ts, next, RParen) == Items(Pratt, w.ts, next, RParen);
    assert PostfixAt(w.ts, c, f) == Postfix(Pratt, w.ts, c, f);
    assert OnePostfix(Pratt, w.ts, c, f) == Parsed(Ast.Call(f, args), Move(d, 1));
    assert PostfixAt(w.ts, Move(d, 1), Ast.Call(f, args)) == Postfix(Pratt, w.ts, Move(d, 1), Ast.Call(f, args));
  }

  lemma IndexStep(w: Text, c: Cursor, b: Expr, i: Expr, d: Cursor)
    requires c.pos + 1 < |w.ts| && d.pos + 1 < |w.ts| && Current(w.ts, c).LBracket?
    requires w.climb(Move(c, 1), 0) == Parsed(i, d) && Current(w.ts, d).RBracket?
    ensures w.postfix(c, b) == w.postfix(Move(d, 1), Ast.Index(b, i))
  {
    assert ClimbAt(w.ts, Move(c, 1), 0) == Whole(Pratt, w.ts, Move(c, 1));
    assert PostfixAt(w.ts, c, b) == Postfix(Pratt, w.ts, c, b);
    assert OnePostfix(Pratt, w.ts, c, b) == Parsed(Ast.Index(b, i), Move(d, 1));
    assert PostfixAt(w.ts, Move(d, 1), Ast.Index(b, i)) == Postfix(Pratt, w.ts, Move(d, 1), Ast.Index(b, i));
  }

  lemma MemberStep(w: Text, c: Cursor, o: Expr, field: string)
    requires c.pos + 2 < |w.ts| && Current(w.ts, c).Dot? && w.ts[c.pos + 1] == Token(Identifier, field, 0)
    ensures w.postfix(c, o) == w.postfix(Move(c, 2), Ast.Member(o, field))
  {
    assert PostfixAt(w.ts, c, o) == Postfix(Pratt, w.ts, c, o);
    assert OnePostfix(Pratt, w.ts, c, o) == Parsed(Ast.Member(o, field), Move(c, 2));
    assert PostfixAt(w.ts, Move(c, 2), Ast.Member(o, field)) == Postfix(Pratt, w.ts, Move(c, 2), Ast.Member(o, field));
  }

  lemma CastStep(w: Text, c: Cursor, x: Expr, t: Ast.TypeNode, d: Cursor)
    requires c.pos + 1 < |w.ts| && In(w.ts, d) && Current(w.ts, c).KwAs? && w.typ(Move(c, 1)) == Parsed(t, d)
    ensures w.postfix(c, x) == w.postfix(d, Ast.Cast(x, t))
  {
    assert TypeAt(w.ts, Move(c, 1)) == Type(Pratt, w.ts, Move(c, 1));
    assert PostfixAt(w.ts, c, x) == Postfix(Pratt, w.ts, c, x);
    assert OnePostfix(Pratt, w.ts, c, x) == Parsed(Ast.Cast(x, t), d);
    assert PostfixAt(w.ts, d, Ast.Cast(x, t)) == Postfix(Pratt, w.ts, d, Ast.Cast(x, t));
  }

  lemma PostfixStops(w: Text, c: Cursor, x: Expr)
    requires In(w.ts, c) && !StartsPostfix(Current(w.ts, c))
    ensures w.postfix(c, x) == Parsed(x, c)
  {
    assert PostfixAt(w.ts, c, x) == Postfix(Pratt, w.ts, c, x);
  }

  lemma LoopStops(w: Text, c: Cursor, min: nat, x: Expr)
    requires In(w.ts, c) && Precedence(Current(w.ts, c)) <= min
    ensures w.loop(c, min, x) == Parsed(x, c)
  {
    assert LoopAt(w.ts, c, min, x) == Loop(w.ts, c, min, x);
  }

  lemma LoopStep(w: Text, c: Cursor, min: nat, op: Ast.BinaryOp, l: Expr, r: Expr, d: Cursor)
    requires c.pos + 1 < |w.ts| && In(w.ts, d) && Current(w.ts, c) == InfixKind(op) && min < OpLevel(op)
    requires w.climb(Move(c, 1), OpLevel(op)) == Parsed(r, d) && !StartsPostfix(Current(w.ts, d))
    ensures w.loop(c, min, l) == w.loop(d, min, Ast.Binary(op, l, r))
  {
    InfixBack(op);
    var both := Ast.Binary(op, l, r);
    assert ClimbAt(w.ts, Move(c, 1), OpLevel(op)) == Climb(w.ts, Move(c, 1), OpLevel(op));
    assert LoopAt(w.ts, c, min, l) == Loop(w.ts, c, min, l);
    assert Postfix(Pratt, w.ts, d, both) == Parsed(both, d);
    assert LoopAt(w.ts, d, min, both) == Loop(w.ts, d, min, both);
  }

  // An operand, read up to d, with no assignment after it.
  lemma OperandStep(w: Text, c: Cursor, min: nat, x: Expr, d: Cursor)
    requires In(w.ts, c) && In(w.ts, d)
    requires w.postfix(w.primary(c).c, w.primary(c).v) == Parsed(x, d)
    requires AssignmentOp(Current(w.ts, d)).None?
    ensures w.climb(c, min) == w.loop(d, min, x)
  {
    var y := Primary(Pratt, w.ts, c);
    assert PrimaryAt(w.ts, c) == y && PostfixAt(w.ts, y.c, y.v) == Postfix(Pratt, w.ts, y.c, y.v);
    assert ClimbAt(w.ts, c, min) == Climb(w.ts, c, min) && LoopAt(w.ts, d, min, x) == Loop(w.ts, d, min, x);
  }

  lemma AssignStep(w: Text, c: Cursor, min: nat, op: Ast.AssignOp, t: Expr, v: Expr, d: Cursor, e: Cursor)
    requires In(w.ts, c) && d.pos + 1 < |w.ts| && In(w.ts, e) && Current(w.ts, d) == AssignKind(op)
    requires w.postfix(w.primary(c).c, w.primary(c).v) == Parsed(t, d)
    requires w.climb(Move(d, 1), 0) == Parsed(v, e)
    ensures w.climb(c, min) == Parsed(Ast.AssignExpr(op, t, v), e)
  {
    AssignBack(op);
    var y := Primary(Pratt, w.ts, c);
    assert PrimaryAt(w.ts, c) == y && PostfixAt(w.ts, y.c, y.v) == Postfix(Pratt, w.ts, y.c, y.v);
    assert ClimbAt(w.ts, c, min) == Climb(w.ts, c, min) && ClimbAt(w.ts, Move(d, 1), 0) == Climb(w.ts, Move(d, 1), 0);
  }

  lemma NoItems(w: Text, c: Cursor, close: Kind)
    requires In(w.ts, c) && Current(w.ts, c) == close
    ensures w.items(c, close) == Parsed([], c)
  {
    assert ItemsAt(w.ts, c, close) == Items(Pratt, w.ts, c, close);
  }

  lemma ItemsStep(w: Text, c: Cursor, close: Kind)
    requires In(w.ts, c) && Current(w.ts, c) != close
    ensures w.items(c, close) == w.someItems(c)
  {
    assert ItemsAt(w.ts, c, close) == Items(Pratt, w.ts, c, close) && SomeItemsAt(w.ts, c) == SomeItems(Pratt, w.ts, c);
  }

  lemma LastItem(w: Text, c: Cursor, e: Expr, d: Cursor)
    requires In(w.ts, c) && In(w.ts, d) && w.climb(c, 0) == Parsed(e, d) && !Current(w.ts, d).Comma?
    ensures w.someItems(c) == Parsed([e], d)
  {
    assert SomeItemsAt(w.ts, c) == SomeItems(Pratt, w.ts, c) && ClimbAt(w.ts, c, 0) == Whole(Pratt, w.ts, c);
  }

  lemma NextItem(w: Text, c: Cursor, e: Expr, d: Cursor, es: seq<Expr>, z: Cursor)
    requires In(w.ts, c) && d.pos + 1 < |w.ts| && w.climb(c, 0) == Parsed(e, d) && Current(w.ts, d).Comma?
    requires w.someItems(Move(d, 1)) == Parsed(es, z)
    ensures w.someItems(c) == Parsed([e] + es, z)
  {
    assert SomeItemsAt(w.ts, c) == SomeItems(Pratt, w.ts, c) && ClimbAt(w.ts, c, 0) == Whole(Pratt, w.ts, c);
    assert SomeItemsAt(w.ts, Move(d, 1)) == SomeItems(Pratt, w.ts, Move(d, 1));
  }

  lemma NamedStep(w: Text, c: Cursor, path: string)
    requires c.pos + 1 < |w.ts| && w.ts[c.pos] == Token(Identifier, path, 0) && EndsType(Current(w.ts, Move(c, 1)))
    ensures w.typ(c) == Parsed(Ast.NamedType(path), Move(c, 1))
  {
    assert TypeAt(w.ts, c) == Type(Pratt, w.ts, c);
  }

  lemma PointerStep(w: Text, c: Cursor, p: Ast.TypeNode, d: Cursor)
    requires c.pos + 1 < |w.ts| && Current(w.ts, c).Star? && !Current(w.ts, Move(c, 1)).KwMut?
    requires w.typ(Move(c, 1)) == Parsed(p, d)
    ensures w.typ(c) == Parsed(Ast.PointerType(p, false), d)
  {
    var next := Move(c, 1);
    assert TypeAt(w.ts, next) == Type(Pratt, w.ts, next);
    assert PointerType(Pratt, w.ts, next) == Parsed(Ast.PointerType(p, false), d);
    assert TypeAt(w.ts, c) == Type(Pratt, w.ts, c);
  }

  lemma MutPointerStep(w: Text, c: Cursor, p: Ast.TypeNode, d: Cursor)
    requires c.pos + 2 < |w.ts| && Current(w.ts, c).Star? && Current(w.ts, Move(c, 1)).KwMut?
    requires w.typ(Move(c, 2)) == Parsed(p, d)
    ensures w.typ(c) == Parsed(Ast.PointerType(p, true), d)
  {
    var next := Move(c, 1);
    assert TypeAt(w.ts, Move(c, 2)) == Type(Pratt, w.ts, Move(c, 2)) && Optional(w.ts, next, KwMut) == Move(c, 2);
    assert PointerType(Pratt, w.ts, next) == Parsed(Ast.PointerType(p, true), d);
    assert TypeAt(w.ts, c) == Type(Pratt, w.ts, c);
  }

  lemma BracketUnfolds(ts: Stream, c: Cursor, b: Parsed<Ast.TypeNode>)
    requires c.pos + 1 < |ts| && Current(ts, c).LBracket? && b == BracketType(Pratt, ts, Move(c, 1))
    ensures Type(Pratt, ts, c) == b
  {
    assert Advance(ts, c) == Move(c, 1);
  }

  lemma AtBracket(w: Text, c: Cursor, b: Parsed<Ast.TypeNode>)
    requires c.pos + 1 < |w.ts| && Current(w.ts, c).LBracket? && b == BracketType(Pratt, w.ts, Move(c, 1))
    ensures w.typ(c) == b
  {
    BracketUnfolds(w.ts, c, b);
    assert TypeAt(w.ts, c) == Type(Pratt, w.ts, c);
  }

  lemma SliceStep(w: Text, c: Cursor, e: Ast.TypeNode, d: Cursor)
    requires c.pos + 1 < |w.ts| && In(w.ts, d) && Current(w.ts, c).LBracket?
    requires w.typ(Move(c, 1)) == Parsed(e, d) && Current(w.ts, d).RBracket?
    ensures w.typ(c) == Parsed(Ast.SliceType(e), Move(d, 1))
  {
    AtBracket(w, c, BracketType(Pratt, w.ts, Move(c, 1)));
    assert TypeAt(w.ts, Move(c, 1)) == Type(Pratt, w.ts, Move(c, 1));
  }

  lemma SizedBrackets(ts: Stream, c: Cursor, e: Ast.TypeNode, n: Expr, d: Cursor, z: Cursor)
    requires In(ts, c) && d.pos + 1 < |ts| && In(ts, z) && Type(Pratt, ts, c) == Parsed(e, d) &&
      Current(ts, d).Semicolon?
    requires Whole(Pratt, ts, Move(d, 1)) == Parsed(n, z) && Current(ts, z).RBracket?
    ensures BracketType(Pratt, ts, c) == Parsed(Ast.ArrayType(e, n), Move(z, 1))
  {
    assert Advance(ts, d) == Move(d, 1) && Expect(ts, z, RBracket, "expected ']'") == Move(z, 1);
  }

  lemma SizedStep(w: Text, c: Cursor, e: Ast.TypeNode, n: Expr, d: Cursor, z: Cursor)
    requires c.pos + 1 < |w.ts| && d.pos + 1 < |w.ts| && In(w.ts, z) && Current(w.ts, c).LBracket?
    requires w.typ(Move(c, 1)) == Parsed(e, d) && Current(w.ts, d).Semicolon?
    requires w.climb(Move(d, 1), 0) == Parsed(n, z) && Current(w.ts, z).RBracket?
    ensures w.typ(c) == Parsed(Ast.ArrayType(e, n), Move(z, 1))
  {
    AtBracket(w, c, BracketType(Pratt, w.ts, Move(c, 1)));
    assert TypeAt(w.ts, Move(c, 1)) == Parsed(e, d);
    assert ClimbAt(w.ts, Move(d, 1), 0) == Whole(Pratt, w.ts, Move(d, 1));
    SizedBrackets(w.ts, Move(c, 1), e, n, d, z);
  }

  // From `fn` to the closing parenthesis at d.
  ghost predicate Signature(w: Text, c: Cursor, params: seq<Ast.TypeNode>, d: Cursor) {
    && c.pos + 2 < |w.ts| && Current(w.ts, c).KwFn? && Current(w.ts, Move(c, 1)).LParen?
    && In(w.ts, d) && Current(w.ts, d).RParen?
    && if params == [] then d == Move(c, 2)
       else !Current(w.ts, Move(c, 2)).RParen? && w.types(Move(c, 2)) == Parsed(params, d)
  }

  lemma FunctionStep(w: Text, c: Cursor, params: seq<Ast.TypeNode>, d: Cursor)
    requires Signature(w, c, params, d) && d.pos + 1 < |w.ts| && !Current(w.ts, Move(d, 1)).Arrow?
    ensures w.typ(c) == Parsed(Ast.FunctionType(params, None), Move(d, 1))
  {
    assert TypesAt(w.ts, Move(c, 2)) == Types(Pratt, w.ts, Move(c, 2));
    assert TypeAt(w.ts, c) == FunctionType(Pratt, w.ts, Move(c, 1));
  }

  lemma FunctionArrowStep(w: Text, c: Cursor, params: seq<Ast.TypeNode>, d: Cursor, r: Ast.TypeNode, z: Cursor)
    requires Signature(w, c, params, d) && d.pos + 2 < |w.ts| && Current(w.ts, Move(d, 1)).Arrow?
    requires w.typ(Move(d, 2)) == Parsed(r, z)
    ensures w.typ(c) == Parsed(Ast.FunctionType(params, Some(r)), z)
  {
    assert TypesAt(w.ts, Move(c, 2)) == Types(Pratt, w.ts, Move(c, 2));
    assert TypeAt(w.ts, Move(d, 2)) == Type(Pratt, w.ts, Move(d, 2));
    assert FunctionType(Pratt, w.ts, Move(c, 1)) == Parsed(Ast.FunctionType(params, Some(r)), z);
    assert TypeAt(w.ts, c) == Type(Pratt, w.ts, c);
  }

  lemma LastType(w: Text, c: Cursor, t: Ast.TypeNode, d: Cursor)
    requires In(w.ts, c) && In(w.ts, d) && w.typ(c) == Parsed(t, d) && !Current(w.ts, d).Comma?
    ensures w.types(c) == Parsed([t], d)
  {
    assert TypesAt(w.ts, c) == Types(Pratt, w.ts, c) && TypeAt(w.ts, c) == Type(Pratt, w.ts, c);
  }

  lemma NextType(w: Text, c: Cursor, t: Ast.TypeNode, d: Cursor, more: seq<Ast.TypeNode>, z: Cursor)
    requires In(w.ts, c) && d.pos + 1 < |w.ts| && w.typ(c) == Parsed(t, d) && Current(w.ts, d).Comma?
    requires w.types(Move(d, 1)) == Parsed(more, z)
    ensures w.types(c) == Parsed([t] + more, z)
  {
    assert TypesAt(w.ts, c) == Types(Pratt, w.ts, c) && TypeAt(w.ts, c) == Type(Pratt, w.ts, c);
    assert TypesAt(w.ts, Move(d, 1)) == Types(Pratt, w.ts, Move(d, 1));
  }

  lemma HoldsSized(w: Text, p: nat, a: seq<Token>, b: seq<Token>)
    requires Stands(w, p, [Tok(LBracket)] + a + [Tok(Semicolon)] + b + [Tok(RBracket)])
    ensures w.ts[p] == Tok(LBracket) && Stands(w, p + 1, a) && w.ts[p + 1 + |a|] == Tok(Semicolon)
    ensures Stands(w, p + |a| + 2, b) && w.ts[p + |a| + 2 + |b|] == Tok(RBracket)
  {
    HoldsCall(w, p, [Tok(LBracket)] + a, Tok(Semicolon), b, Tok(RBracket));
    HoldsParts(w, p, [Tok(LBracket)], a);
    HoldsOne(w, p, Tok(LBracket));
  }

  lemma CommaBetween(w: Text, p: nat, a: seq<Token>, b: seq<Token>)
    requires Stands(w, p, a + ([Tok(Comma)] + b))
    ensures Stands(w, p, a) && w.ts[p + |a|] == Tok(Comma) && Stands(w, p + |a| + 1, b)
  {
    HoldsParts(w, p, a, [Tok(Comma)] + b);
    HoldsParts(w, p + |a|, [Tok(Comma)], b);
    HoldsOne(w, p + |a|, Tok(Comma));
  }

  // How the parts of a tree make up its text.

  lemma PrimForm(w: Text, e: Expr)
    requires Writable(e)
    ensures w.prim(e) == if IsPrimary(e) then w.bare(e, true) else Parens(w.bare(e, true))
  {
    assert PrimText(e) == PrintPrimary(e) && BareText(e, true) == Bare(e, true);
  }

  lemma PostForm(w: Text, e: Expr)
    requires Writable(e)
    ensures w.post(e) == if IsPrimary(e) || IsPostfixed(e) then w.bare(e, true) else Parens(w.bare(e, true))
  {
    assert PostText(e) == PrintPostfixed(e) && BareText(e, true) == Bare(e, true);
  }

  lemma WholeForm(w: Text, e: Expr, level: nat, last: bool)
    requires Writable(e)
    ensures w.whole(e, level, last) == if Fits(e, level, last) then w.bare(e, last) else Parens(w.bare(e, true))
    ensures !e.Binary? && !e.AssignExpr? ==> w.whole(e, level, last) == w.post(e)
  {
    assert WholeText(e, level, last) == Print(e, level, last);
    assert BareText(e, last) == Bare(e, last) && BareText(e, true) == Bare(e, true);
    if !e.Binary? && !e.AssignExpr? {
      assert Bare(e, last) == Bare(e, true);
      PostForm(w, e);
    }
  }

  lemma LiteralForm(w: Text, e: Expr)
    requires IsPrimary(e) && !e.ArrayLit? && !e.Unary? && Writable(e)
    ensures w.bare(e, true) == [LiteralToken(e)]
  {
    assert BareText(e, true) == Bare(e, true);
  }

  lemma UnaryForm(w: Text, e: Expr)
    requires e.Unary? && Writable(e)
    ensures Writable(e.operand) && w.bare(e, true) == [Tok(PrefixKind(e.uop))] + w.prim(e.operand)
  {
    assert BareText(e, true) == Bare(e, true) && PrimText(e.operand) == PrintPrimary(e.operand);
  }

  lemma ArrayForm(w: Text, e: Expr)
    requires e.ArrayLit? && Writable(e)
    ensures WritableAll(e.elements)
    ensures w.bare(e, true) == [Tok(KwArray), Tok(LBracket)] + w.list(e.elements) + [Tok(RBracket)]
  {
    assert BareText(e, true) == Bare(e, true) && ListText(e.elements) == PrintItems(e.elements);
  }

  lemma CallForm(w: Text, e: Expr)
    requires e.Call? && Writable(e)
    ensures Writable(e.callee) && WritableAll(e.args)
    ensures w.bare(e, true) == w.post(e.callee) + [Tok(LParen)] + w.list(e.args) + [Tok(RParen)]
  {
    assert BareText(e, true) == Bare(e, true) && PostText(e.callee) == PrintPostfixed(e.callee);
    assert ListText(e.args) == PrintItems(e.args);
  }

  lemma IndexForm(w: Text, e: Expr)
    requires e.Index? && Writable(e)
    ensures Writable(e.base) && Writable(e.index)
    ensures w.bare(e, true) == w.post(e.base) + [Tok(LBracket)] + w.whole(e.index, 0, true) + [Tok(RBracket)]
  {
    assert BareText(e, true) == Bare(e, true) && PostText(e.base) == PrintPostfixed(e.base);
    assert WholeText(e.index, 0, true) == Print(e.index, 0, true);
  }

  lemma MemberForm(w: Text, e: Expr)
    requires e.Member? && Writable(e)
    ensures Writable(e.object_)
    ensures w.bare(e, true) == w.post(e.object_) + [Tok(Dot)] + [Token(Identifier, e.field, 0)]
  {
    assert BareText(e, true) == Bare(e, true) && PostText(e.object_) == PrintPostfixed(e.object_);
    assert [Tok(Dot), Token(Identifier, e.field, 0)] == [Tok(Dot)] + [Token(Identifier, e.field, 0)];
  }

  lemma CastForm(w: Text, e: Expr)
    requires e.Cast? && Writable(e)
    ensures Writable(e.inner) && WritableType(e.ty)
    ensures w.bare(e, true) == w.post(e.inner) + [Tok(KwAs)] + w.typeText(e.ty)
  {
    assert BareText(e, true) == Bare(e, true) && PostText(e.inner) == PrintPostfixed(e.inner);
    assert TypeText(e.ty) == PrintType(e.ty);
  }

  lemma BinaryForm(w: Text, e: Expr, last: bool)
    requires e.Binary? && Writable(e)
    ensures Writable(e.lhs) && Writable(e.rhs)
    ensures w.bare(e, last)
         == w.whole(e.lhs, OpLevel(e.op) - 1, false) + [Tok(InfixKind(e.op))] + w.whole(e.rhs, OpLevel(e.op), last)
  {
    assert BareText(e, last) == Bare(e, last);
    assert WholeText(e.lhs, OpLevel(e.op) - 1, false) == Print(e.lhs, OpLevel(e.op) - 1, false);
    assert WholeText(e.rhs, OpLevel(e.op), last) == Print(e.rhs, OpLevel(e.op), last);
  }

  lemma AssignForm(w: Text, e: Expr)
    requires e.AssignExpr? && Writable(e)
    ensures Writable(e.target) && Writable(e.rvalue)
    ensures w.bare(e, true) == w.post(e.target) + [Tok(AssignKind(e.aop))] + w.whole(e.rvalue, 0, true)
  {
    assert BareText(e, true) == Bare(e, true) && PostText(e.target) == PrintPostfixed(e.target);
    assert WholeText(e.rvalue, 0, true) == Print(e.rvalue, 0, true);
  }

  lemma EmptyList(w: Text)
    ensures w.list([]) == []
  {
    assert ListText([]) == [];
  }

  lemma ItemsText(es: seq<Expr>, s: seq<Token>, first: seq<Token>, rest: seq<Token>)
    requires es != [] && WritableAll(es) && s == PrintItems(es) && first == Print(es[0], 0, true) &&
      rest == PrintItems(es[1..])
    ensures s == first + (if |es| == 1 then [] else [Tok(Comma)] + rest)
    ensures s != [] && Opens(s[0].kind)
  {
    PrintOpens(es[0], 0, true);
  }

  lemma ListIs(w: Text, es: seq<Expr>, s: seq<Token>)
    requires WritableAll(es) && s == w.list(es)
    ensures s == PrintItems(es)
  {
    assert ListText(es) == PrintItems(es);
  }

  lemma WholeIs(w: Text, e: Expr, s: seq<Token>)
    requires Writable(e) && s == w.whole(e, 0, true)
    ensures s == Print(e, 0, true)
  {
    assert WholeText(e, 0, true) == Print(e, 0, true);
  }

  lemma ListForm(w: Text, es: seq<Expr>)
    requires es != [] && WritableAll(es)
    ensures Writable(es[0]) && WritableAll(es[1..]) && w.list(es) != [] && Opens(w.list(es)[0].kind)
    ensures w.list(es) == w.whole(es[0], 0, true) + (if |es| == 1 then [] else [Tok(Comma)] + w.list(es[1..]))
  {
    ListIs(w, es, w.list(es));
    ListIs(w, es[1..], w.list(es[1..]));
    WholeIs(w, es[0], w.whole(es[0], 0, true));
    ItemsText(es, w.list(es), w.whole(es[0], 0, true), w.list(es[1..]));
  }

  lemma TypeForm(w: Text, t: Ast.TypeNode)
    requires WritableType(t)
    ensures w.typeText(t) != [] && Opens(w.typeText(t)[0].kind) && !w.typeText(t)[0].kind.KwMut?
    ensures match t
            case NamedType(path) => w.typeText(t) == [Token(Identifier, path, 0)]
            case PointerType(p, isMut) => WritableType(p) && w.typeText(t) == (if isMut then [Tok(Star), Tok(KwMut)]
                                                                               else [Tok(Star)]) + w.typeText(p)
            case SliceType(e) => WritableType(e) && w.typeText(t) == [Tok(LBracket)] + w.typeText(e) + [Tok(RBracket)]
            case _ => true
  {
    assert TypeText(t) == PrintType(t);
    match t
    case PointerType(p, _) => assert TypeText(p) == PrintType(p);
    case SliceType(e) => assert TypeText(e) == PrintType(e);
    case _ =>
  }

  lemma SizedForm(w: Text, t: Ast.TypeNode)
    requires t.ArrayType? && WritableType(t)
    ensures WritableType(t.element) && Writable(t.size)
    ensures w.typeText(t) == [Tok(LBracket)] + w.typeText(t.element) + [Tok(Semicolon)] + w.whole(t.size, 0,
        true) + [Tok(RBracket)]
  {
    assert TypeText(t) == PrintType(t) && TypeText(t.element) == PrintType(t.element);
    assert WholeText(t.size, 0, true) == Print(t.size, 0, true);
  }

  lemma FunctionForm(w: Text, t: Ast.TypeNode)
    requires t.FunctionType? && WritableType(t)
    ensures WritableTypes(t.params)
    ensures var head := [Tok(KwFn), Tok(LParen)] + w.typesText(t.params);
            match t.ret
            case None => w.typeText(t) == head + [Tok(RParen)]
            case Some(r) => WritableType(r) && w.typeText(t) == head + ([Tok(RParen), Tok(Arrow)] + w.typeText(r))
  {
    assert TypeText(t) == PrintType(t) && TypesText(t.params) == PrintTypes(t.params);
    match t.ret
    case None =>
    case Some(r) => assert TypeText(r) == PrintType(r);
  }

  lemma NoTypes(w: Text)
    ensures w.typesText([]) == []
  {
    assert TypesText([]) == [];
  }

  lemma ParamsText(params: seq<Ast.TypeNode>, s: seq<Token>, first: seq<Token>, rest: seq<Token>)
    requires params != [] && WritableTypes(params)
    requires s == PrintTypes(params) && first == PrintType(params[0]) && rest == PrintTypes(params[1..])
    ensures s == first + (if |params| == 1 then [] else [Tok(Comma)] + rest)
    ensures s != [] && Opens(s[0].kind)
  {
    TypeOpens(params[0]);
  }

  lemma TypesAre(w: Text, params: seq<Ast.TypeNode>, s: seq<Token>)
    requires WritableTypes(params) && s == w.typesText(params)
    ensures s == PrintTypes(params)
  {
    assert TypesText(params) == PrintTypes(params);
  }

  lemma TypeIs(w: Text, t: Ast.TypeNode, s: seq<Token>)
    requires WritableType(t) && s == w.typeText(t)
    ensures s == PrintType(t)
  {
    assert TypeText(t) == PrintType(t);
  }

  lemma TypesForm(w: Text, params: seq<Ast.TypeNode>)
    requires params != [] && WritableTypes(params)
    ensures WritableType(params[0]) && WritableTypes(params[1..]) && w.typesText(params) != [] &&
      Opens(w.typesText(params)[0].kind)
    ensures w.typesText(params) == w.typeText(params[0]) + (if |params| == 1 then []
                                                            else [Tok(Comma)] + w.typesText(params[1..]))
  {
    TypesAre(w, params, w.typesText(params));
    TypesAre(w, params[1..], w.typesText(params[1..]));
    TypeIs(w, params[0], w.typeText(params[0]));
    ParamsText(params, w.typesText(params), w.typeText(params[0]), w.typesText(params[1..]));
  }
}
