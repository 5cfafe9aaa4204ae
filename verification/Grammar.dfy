// Parsing expressions and types, as functions of the token stream and the cursor. The
// expression level comes in two forms: the operator-precedence loop of the parser, and the
// textbook grammar with one function per precedence level.
module Grammar {
  import opened Common
  import Ast
  import opened Tokens

  type Expr = Ast.Expr

  // A diagnostic, at the token that caused it.
  datatype Problem = Problem(at: nat, message: string)

  datatype Cursor = Cursor(pos: nat, problems: seq<Problem>)

  datatype Parsed<T> = Parsed(v: T, c: Cursor)

  predicate In(ts: Stream, c: Cursor) {
    c.pos < |ts|
  }

  // How much there is left to read.
  function Left(ts: Stream, c: Cursor): nat
    requires In(ts, c)
  {
    |ts| - c.pos
  }

  function Current(ts: Stream, c: Cursor): Kind
    requires In(ts, c)
  {
    ts[c.pos].kind
  }

  // Nothing is read past Eof.
  function Advance(ts: Stream, c: Cursor): (d: Cursor)
    requires In(ts, c)
    ensures In(ts, d) && d.problems == c.problems
    ensures d.pos == if Current(ts, c).Eof? then c.pos else c.pos + 1
  {
    if ts[c.pos].kind.Eof? then c else c.(pos := c.pos + 1)
  }

  function Complain(c: Cursor, message: string): Cursor {
    c.(problems := c.problems + [Problem(c.pos, message)])
  }

  // A missing token is reported and taken as read.
  function Expect(ts: Stream, c: Cursor, k: Kind, message: string): (d: Cursor)
    requires In(ts, c)
    ensures In(ts, d) && c.pos <= d.pos
  {
    if Current(ts, c) == k then Advance(ts, c) else Complain(c, message)
  }

  function Optional(ts: Stream, c: Cursor, k: Kind): (d: Cursor)
    requires In(ts, c)
    ensures In(ts, d) && c.pos <= d.pos
  {
    if Current(ts, c) == k then Advance(ts, c) else c
  }

  // 0 is no infix operator.
  function Precedence(k: Kind): (p: nat)
    ensures p <= 10
  {
    match k
    case OrOr => 1
    case AndAnd => 2
    case Pipe => 3
    case Caret => 4
    case Amp => 5
    case EqEq => 6
    case NotEq => 6
    case Lt => 7
    case Gt => 7
    case LtEq => 7
    case GtEq => 7
    case Shl => 8
    case Shr => 8
    case Plus => 9
    case Minus => 9
    case Star => 10
    case Slash => 10
    case Percent => 10
    case _ => 0
  }

  function InfixOp(k: Kind): Ast.BinaryOp {
    match k
    case Plus => Ast.Add
    case Minus => Ast.Sub
    case Star => Ast.Mul
    case Slash => Ast.Div
    case Percent => Ast.Mod
    case EqEq => Ast.Eq
    case NotEq => Ast.NotEq
    case Lt => Ast.Lt
    case Gt => Ast.Gt
    case LtEq => Ast.LtEq
    case GtEq => Ast.GtEq
    case AndAnd => Ast.And
    case OrOr => Ast.Or
    case Amp => Ast.BitAnd
    case Pipe => Ast.BitOr
    case Caret => Ast.BitXor
    case Shl => Ast.Shl
    case Shr => Ast.Shr
    case _ => Ast.Add
  }

  function AssignmentOp(k: Kind): Option<Ast.AssignOp> {
    match k
    case Eq => Some(Ast.Assign)
    case PlusEq => Some(Ast.AddAssign)
    case MinusEq => Some(Ast.SubAssign)
    case StarEq => Some(Ast.MulAssign)
    case SlashEq => Some(Ast.DivAssign)
    case PercentEq => Some(Ast.ModAssign)
    case AmpEq => Some(Ast.BitAndAssign)
    case PipeEq => Some(Ast.BitOrAssign)
    case CaretEq => Some(Ast.BitXorAssign)
    case _ => None
  }

  function PrefixOp(k: Kind): Option<Ast.UnaryOp> {
    match k
    case Minus => Some(Ast.Neg)
    case Bang => Some(Ast.Not)
    case Tilde => Some(Ast.BitNot)
    case Star => Some(Ast.Deref)
    case Amp => Some(Ast.AddrOf)
    case _ => None
  }

  // Tokens that are an expression by themselves.
  function Literal(t: Token): Option<Expr> {
    match t.kind
    case IntLiteral => Some(Ast.IntLit(t.value))
    case FloatLiteral => Some(Ast.FloatLit(t.lexeme))
    case StringLiteral =>
      Some(Ast.StringLit(if |t.lexeme| >= 2 then t.lexeme[1..|t.lexeme| - 1] else t.lexeme))
    case CharLiteral => Some(Ast.CharLit(if |t.lexeme| > 1 then t.lexeme[1] as int else 0))
    case KwTrue => Some(Ast.BoolLit(true))
    case KwFalse => Some(Ast.BoolLit(false))
    case KwNil => Some(Ast.NilLit)
    case Identifier => Some(Ast.Ident(t.lexeme))
    case _ => None
  }

  // How a subexpression is read.
  datatype Mode = Pratt | Layered

  function Whole(m: Mode, ts: Stream, c: Cursor): (r: Parsed<Expr>)
    requires In(ts, c)
    ensures In(ts, r.c) && c.pos <= r.c.pos
    decreases Left(ts, c), 20
  {
    if m.Pratt? then Climb(ts, c, 0) else Layer(ts, c, LOWEST_LEVEL)
  }

  function Primary(m: Mode, ts: Stream, c: Cursor): (r: Parsed<Expr>)
    requires In(ts, c)
    ensures In(ts, r.c) && c.pos <= r.c.pos
    ensures !Current(ts, c).Eof? ==> c.pos < r.c.pos
    decreases Left(ts, c), 0
  {
    var k := Current(ts, c);
    var next := Advance(ts, c);
    if PrefixOp(k).Some? then
      var x := Primary(m, ts, next);
      Parsed(Ast.Unary(PrefixOp(k).value, x.v), x.c)
    else if k.LParen? then
      var x := Whole(m, ts, next);
      Parsed(x.v, Expect(ts, x.c, RParen, "expected ')' after expression"))
    else if Literal(ts[c.pos]).Some? then Parsed(Literal(ts[c.pos]).value, next)
    else if k.KwArray? then
      var open := Expect(ts, next, LBracket, "expected '[' after 'array'");
      var xs := Items(m, ts, open, RBracket);
      Parsed(Ast.ArrayLit(xs.v), Expect(ts, xs.c, RBracket, "expected ']' after array elements"))
    else Parsed(Ast.NilLit, Advance(ts, Complain(c, "expected an expression")))
  }

  // Comma-separated expressions, none if the closing token comes first.
  function Items(m: Mode, ts: Stream, c: Cursor, close: Kind): (r: Parsed<seq<Expr>>)
    requires In(ts, c)
    ensures In(ts, r.c) && c.pos <= r.c.pos
    decreases Left(ts, c), 22
  {
    if Current(ts, c) == close then Parsed([], c) else SomeItems(m, ts, c)
  }

  function SomeItems(m: Mode, ts: Stream, c: Cursor): (r: Parsed<seq<Expr>>)
    requires In(ts, c)
    ensures In(ts, r.c) && c.pos <= r.c.pos
    decreases Left(ts, c), 21
  {
    var x := Whole(m, ts, c);
    if Current(ts, x.c).Comma? then
      var rest := SomeItems(m, ts, Advance(ts, x.c));
      Parsed([x.v] + rest.v, rest.c)
    else Parsed([x.v], x.c)
  }

  predicate StartsPostfix(k: Kind) {
    k.LParen? || k.LBracket? || k.Dot? || k.KwAs?
  }

  // One postfix after x.
  function OnePostfix(m: Mode, ts: Stream, c: Cursor, x: Expr): (r: Parsed<Expr>)
    requires In(ts, c) && StartsPostfix(Current(ts, c))
    ensures In(ts, r.c) && c.pos < r.c.pos
    decreases Left(ts, c), 0
  {
    var next := Advance(ts, c);
    var k := Current(ts, c);
    if k.LParen? then
      var xs := Items(m, ts, next, RParen);
      Parsed(Ast.Call(x, xs.v), Expect(ts, xs.c, RParen, "expected ')' after arguments"))
    else if k.LBracket? then
      var i := Whole(m, ts, next);
      Parsed(Ast.Index(x, i.v), Expect(ts, i.c, RBracket, "expected ']'"))
    else if k.Dot? then Parsed(Ast.Member(x, ts[next.pos].lexeme), Expect(ts, next, Identifier, "expected field name"))
    else
      var t := Type(m, ts, next);
      Parsed(Ast.Cast(x, t.v), t.c)
  }

  function Postfix(m: Mode, ts: Stream, c: Cursor, x: Expr): (r: Parsed<Expr>)
    requires In(ts, c)
    ensures In(ts, r.c) && c.pos <= r.c.pos
    decreases Left(ts, c), 1
  {
    if StartsPostfix(Current(ts, c)) then
      var y := OnePostfix(m, ts, c, x);
      Postfix(m, ts, y.c, y.v)
    else Parsed(x, c)
  }

  // Types.

  function Type(m: Mode, ts: Stream, c: Cursor): (r: Parsed<Ast.TypeNode>)
    requires In(ts, c)
    ensures In(ts, r.c) && c.pos <= r.c.pos
    decreases Left(ts, c), 0
  {
    var next := Advance(ts, c);
    var k := Current(ts, c);
    if k.Star? then PointerType(m, ts, next)
    else if k.LBracket? then BracketType(m, ts, next)
    else if k.KwFn? || k.KwFun? then FunctionType(m, ts, next)
    else NamedType(ts, c)
  }

  // After the star.
  function PointerType(m: Mode, ts: Stream, c: Cursor): (r: Parsed<Ast.TypeNode>)
    requires In(ts, c)
    ensures In(ts, r.c) && c.pos <= r.c.pos
    decreases Left(ts, c), 1
  {
    var t := Type(m, ts, Optional(ts, c, KwMut));
    Parsed(Ast.PointerType(t.v, Current(ts, c).KwMut?), t.c)
  }

  // After the bracket: [T] or [T; n].
  function BracketType(m: Mode, ts: Stream, c: Cursor): (r: Parsed<Ast.TypeNode>)
    requires In(ts, c)
    ensures In(ts, r.c) && c.pos <= r.c.pos
    decreases Left(ts, c), 23
  {
    var t := Type(m, ts, c);
    if Current(ts, t.c).Semicolon? then
      var n := Whole(m, ts, Advance(ts, t.c));
      Parsed(Ast.ArrayType(t.v, n.v), Expect(ts, n.c, RBracket, "expected ']'"))
    else Parsed(Ast.SliceType(t.v), Expect(ts, t.c, RBracket, "expected ']'"))
  }

  // After the keyword.
  function FunctionType(m: Mode, ts: Stream, c: Cursor): (r: Parsed<Ast.TypeNode>)
    requires In(ts, c)
    ensures In(ts, r.c) && c.pos <= r.c.pos
    decreases Left(ts, c), 2
  {
    var open := Expect(ts, c, LParen, "expected '(' in function type");
    var params := if Current(ts, open).RParen? then Parsed([], open) else Types(m, ts, open);
    var close := Expect(ts, params.c, RParen, "expected ')' in function type");
    if Current(ts, close).Arrow? then
      var t := Type(m, ts, Advance(ts, close));
      Parsed(Ast.FunctionType(params.v, Some(t.v)), t.c)
    else Parsed(Ast.FunctionType(params.v, None), close)
  }

  function Types(m: Mode, ts: Stream, c: Cursor): (r: Parsed<seq<Ast.TypeNode>>)
    requires In(ts, c)
    ensures In(ts, r.c) && c.pos <= r.c.pos
    decreases Left(ts, c), 1
  {
    var t := Type(m, ts, c);
    if Current(ts, t.c).Comma? then
      var rest := Types(m, ts, Advance(ts, t.c));
      Parsed([t.v] + rest.v, rest.c)
    else Parsed([t.v], t.c)
  }

  function NamedType(ts: Stream, c: Cursor): (r: Parsed<Ast.TypeNode>)
    requires In(ts, c)
    ensures In(ts, r.c) && c.pos <= r.c.pos
  {
    TypePath(ts, Expect(ts, c, Identifier, "expected type name"), ts[c.pos].lexeme)
  }

  function TypePath(ts: Stream, c: Cursor, name: string): (r: Parsed<Ast.TypeNode>)
    requires In(ts, c)
    ensures In(ts, r.c) && c.pos <= r.c.pos
    decreases Left(ts, c)
  {
    if Current(ts, c).ColonColon? then
      var next := Advance(ts, c);
      TypePath(ts, Expect(ts, next, Identifier, "expected type name component"), name + "::" + ts[next.pos].lexeme)
    else Parsed(Ast.NamedType(name), c)
  }

  // The target y, with an assignment operator after it, and the value z.
  function Assigned(ts: Stream, y: Parsed<Expr>, z: Parsed<Expr>): Parsed<Expr>
    requires In(ts, y.c) && AssignmentOp(Current(ts, y.c)).Some?
  {
    Parsed(Ast.AssignExpr(AssignmentOp(Current(ts, y.c)).value, y.v, z.v), z.c)
  }

  // The operator-precedence parser.

  // An operand with its postfixes; assignment is recognised here, whatever min is.
  function Climb(ts: Stream, c: Cursor, min: nat): (r: Parsed<Expr>)
    requires In(ts, c)
    ensures In(ts, r.c) && c.pos <= r.c.pos
    ensures !Current(ts, c).Eof? ==> c.pos < r.c.pos
    decreases Left(ts, c), 3
  {
    var x := Primary(Pratt, ts, c);
    var y := Postfix(Pratt, ts, x.c, x.v);
    if AssignmentOp(Current(ts, y.c)).Some? then Assigned(ts, y, Climb(ts, Advance(ts, y.c), 0))
    else Loop(ts, y.c, min, y.v)
  }

  // Infix operators that bind tighter than min.
  function Loop(ts: Stream, c: Cursor, min: nat, lhs: Expr): (r: Parsed<Expr>)
    requires In(ts, c)
    ensures In(ts, r.c) && c.pos <= r.c.pos
    decreases Left(ts, c), 2
  {
    var p := Precedence(Current(ts, c));
    if p <= min then Parsed(lhs, c)
    else
      var rhs := Climb(ts, Advance(ts, c), p);
      var both := Ast.Binary(InfixOp(Current(ts, c)), lhs, rhs.v);
      var z := Postfix(Pratt, ts, rhs.c, both);
      Loop(ts, z.c, min, z.v)
  }

  // The layered grammar: level 11 is an operand with its postfixes and an optional
  // right-recursive assignment; level j is a chain of level j + 1 joined by the operators of
  // precedence j.

  const LOWEST_LEVEL: nat := 1
  const OPERAND_LEVEL: nat := 11

  function Layer(ts: Stream, c: Cursor, level: nat): (r: Parsed<Expr>)
    requires In(ts, c) && 1 <= level <= OPERAND_LEVEL
    ensures In(ts, r.c) && c.pos <= r.c.pos
    decreases Left(ts, c), 4 + OPERAND_LEVEL - level
  {
    if level == OPERAND_LEVEL then Operand(ts, c)
    else
      var x := Layer(ts, c, level + 1);
      Rest(ts, x.c, level, x.v)
  }

  function Operand(ts: Stream, c: Cursor): (r: Parsed<Expr>)
    requires In(ts, c)
    ensures In(ts, r.c) && c.pos <= r.c.pos
    decreases Left(ts, c), 3
  {
    var x := Primary(Layered, ts, c);
    var y := Postfix(Layered, ts, x.c, x.v);
    if AssignmentOp(Current(ts, y.c)).Some? then Assigned(ts, y, Layer(ts, Advance(ts, y.c), LOWEST_LEVEL))
    else y
  }

  function Rest(ts: Stream, c: Cursor, level: nat, lhs: Expr): (r: Parsed<Expr>)
    requires In(ts, c) && 1 <= level < OPERAND_LEVEL
    ensures In(ts, r.c) && c.pos <= r.c.pos
    decreases Left(ts, c), 2
  {
    if Precedence(Current(ts, c)) == level then
      var rhs := Layer(ts, Advance(ts, c), level + 1);
      Rest(ts, rhs.c, level, Ast.Binary(InfixOp(Current(ts, c)), lhs, rhs.v))
    else Parsed(lhs, c)
  }
}
