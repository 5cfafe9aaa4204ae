// Writing expression trees as tokens, with parentheses where the parser would otherwise
// read another tree.
module Printing {
  import Ast
  import opened Tokens
  import opened Grammar

  function Tok(k: Kind): Token {
    Token(k, "", 0)
  }

  function InfixKind(op: Ast.BinaryOp): Kind {
    match op
    case Add => Plus
    case Sub => Minus
    case Mul => Star
    case Div => Slash
    case Mod => Percent
    case Eq => EqEq
    case NotEq => Kind.NotEq
    case Lt => Kind.Lt
    case Gt => Kind.Gt
    case LtEq => Kind.LtEq
    case GtEq => Kind.GtEq
    case And => AndAnd
    case Or => OrOr
    case BitAnd => Amp
    case BitOr => Pipe
    case BitXor => Caret
    case Shl => Kind.Shl
    case Shr => Kind.Shr
  }

  function PrefixKind(op: Ast.UnaryOp): Kind {
    match op
    case Neg => Minus
    case Not => Bang
    case BitNot => Tilde
    case Deref => Star
    case AddrOf => Amp
  }

  function AssignKind(op: Ast.AssignOp): Kind {
    match op
    case Assign => Kind.Eq
    case AddAssign => PlusEq
    case SubAssign => MinusEq
    case MulAssign => StarEq
    case DivAssign => SlashEq
    case ModAssign => PercentEq
    case BitAndAssign => AmpEq
    case BitOrAssign => PipeEq
    case BitXorAssign => CaretEq
  }

  function OpLevel(op: Ast.BinaryOp): (p: nat)
    ensures 1 <= p <= 10
  {
    Precedence(InfixKind(op))
  }

  // A character literal holds one 7-bit character; every other tree can be written.
  predicate Writable(e: Expr)
    decreases e, 0
  {
    match e
    case CharLit(code) => code < 128
    case Binary(_, l, r) => Writable(l) && Writable(r)
    case Unary(_, x) => Writable(x)
    case AssignExpr(_, t, v) => Writable(t) && Writable(v)
    case Call(f, args) => Writable(f) && WritableAll(args)
    case Index(b, i) => Writable(b) && Writable(i)
    case Member(o, _) => Writable(o)
    case Cast(x, t) => Writable(x) && WritableType(t)
    case ArrayLit(es) => WritableAll(es)
    case _ => true
  }

  predicate WritableAll(es: seq<Expr>)
    decreases es, 0
  {
    es == [] || (Writable(es[0]) && WritableAll(es[1..]))
  }

  predicate WritableType(t: Ast.TypeNode)
    decreases t, 0
  {
    match t
    case NamedType(_) => true
    case PointerType(p, _) => WritableType(p)
    case SliceType(e) => WritableType(e)
    case ArrayType(e, n) => WritableType(e) && Writable(n)
    case FunctionType(params, None) => WritableTypes(params)
    case FunctionType(params, Some(r)) => WritableTypes(params) && WritableType(r)
  }

  predicate WritableTypes(ts: seq<Ast.TypeNode>)
    decreases ts, 0
  {
    ts == [] || (WritableType(ts[0]) && WritableTypes(ts[1..]))
  }

  predicate IsPrimary(e: Expr) {
    e.IntLit? || e.FloatLit? || e.StringLit? || e.CharLit? || e.BoolLit? || e.NilLit? || e.Ident? || e.ArrayLit? ||
      e.Unary?
  }

  predicate IsPostfixed(e: Expr) {
    e.Call? || e.Index? || e.Member? || e.Cast?
  }

  // May e stand without parentheses where operators must bind tighter than level? `last`
  // says that no operator follows: only then may an assignment, whose right side would
  // take in what follows.
  predicate Fits(e: Expr, level: nat, last: bool) {
    (e.Binary? ==> OpLevel(e.op) > level) && (e.AssignExpr? ==> last)
  }

  function Parens(s: seq<Token>): seq<Token> {
    [Tok(LParen)] + s + [Tok(RParen)]
  }

  function LiteralToken(e: Expr): Token
    requires IsPrimary(e) && !e.ArrayLit? && !e.Unary? && Writable(e)
  {
    match e
    case IntLit(v) => Token(IntLiteral, "", v)
    case FloatLit(t) => Token(FloatLiteral, t, 0)
    case StringLit(t) => Token(StringLiteral, "\"" + t + "\"", 0)
    case CharLit(code) => Token(CharLiteral, "'" + [code as char] + "'", 0)
    case BoolLit(b) => Tok(if b then KwTrue else KwFalse)
    case NilLit => Tok(KwNil)
    case Ident(x) => Token(Identifier, x, 0)
  }

  function Print(e: Expr, level: nat, last: bool): (s: seq<Token>)
    requires Writable(e)
    ensures s != []
    decreases e, 1
  {
    if Fits(e, level, last) then Bare(e, last) else Parens(Bare(e, true))
  }

  function PrintPrimary(e: Expr): (s: seq<Token>)
    requires Writable(e)
    ensures s != []
    decreases e, 1
  {
    if IsPrimary(e) then Bare(e, true) else Parens(Bare(e, true))
  }

  function PrintPostfixed(e: Expr): (s: seq<Token>)
    requires Writable(e)
    ensures s != []
    decreases e, 1
  {
    if IsPrimary(e) || IsPostfixed(e) then Bare(e, true) else Parens(Bare(e, true))
  }

  // The operand of a prefix operator is primary, as the parser reads it: `-f(x)` calls `-f`.
  function Bare(e: Expr, last: bool): (s: seq<Token>)
    requires Writable(e)
    ensures s != []
    decreases e, 0
  {
    match e
    case Unary(op, x) => [Tok(PrefixKind(op))] + PrintPrimary(x)
    case ArrayLit(es) => [Tok(KwArray), Tok(LBracket)] + PrintItems(es) + [Tok(RBracket)]
    case Binary(op, l, r) => Print(l, OpLevel(op) - 1, false) + [Tok(InfixKind(op))] + Print(r, OpLevel(op), last)
    case AssignExpr(op, t, v) => PrintPostfixed(t) + [Tok(AssignKind(op))] + Print(v, 0, true)
    case Call(f, args) => PrintPostfixed(f) + [Tok(LParen)] + PrintItems(args) + [Tok(RParen)]
    case Index(b, i) => PrintPostfixed(b) + [Tok(LBracket)] + Print(i, 0, true) + [Tok(RBracket)]
    case Member(o, field) => PrintPostfixed(o) + [Tok(Dot), Token(Identifier, field, 0)]
    case Cast(x, t) => PrintPostfixed(x) + [Tok(KwAs)] + PrintType(t)
    case _ => [LiteralToken(e)]
  }

  function PrintItems(es: seq<Expr>): seq<Token>
    requires WritableAll(es)
    decreases es, 0
  {
    if es == [] then []
    else Print(es[0], 0, true) + (if |es| == 1 then [] else [Tok(Comma)] + PrintItems(es[1..]))
  }

  function PrintType(t: Ast.TypeNode): (s: seq<Token>)
    requires WritableType(t)
    ensures s != []
    decreases t, 0
  {
    match t
    case NamedType(path) => [Token(Identifier, path, 0)]
    case PointerType(p, isMut) => (if isMut then [Tok(Star), Tok(KwMut)] else [Tok(Star)]) + PrintType(p)
    case SliceType(e) => [Tok(LBracket)] + PrintType(e) + [Tok(RBracket)]
    case ArrayType(e, n) => [Tok(LBracket)] + PrintType(e) + [Tok(Semicolon)] + Print(n, 0, true) + [Tok(RBracket)]
    case FunctionType(params, None) => [Tok(KwFn), Tok(LParen)] + PrintTypes(params) + [Tok(RParen)]
    case FunctionType(params, Some(r)) =>
      [Tok(KwFn), Tok(LParen)] + PrintTypes(params) + [Tok(RParen), Tok(Arrow)] + PrintType(r)
  }

  function PrintTypes(ts: seq<Ast.TypeNode>): seq<Token>
    requires WritableTypes(ts)
    decreases ts, 0
  {
    if ts == [] then []
    else PrintType(ts[0]) + (if |ts| == 1 then [] else [Tok(Comma)] + PrintTypes(ts[1..]))
  }

  // A whole expression with the end of the stream.
  function Written(e: Expr): Stream
    requires Writable(e)
  {
    Print(e, 0, true) + [Tok(Eof)]
  }
}
