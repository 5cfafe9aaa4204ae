// The operator-precedence loop reads exactly what the layered grammar reads.
module PrattLayers {
  import Ast
  import opened Tokens
  import opened Grammar

  // A token at which an expression ends: no postfix, no assignment, and no infix operator
  // that binds tighter than min.
  predicate EndsAt(ts: Stream, c: Cursor, min: nat)
    requires In(ts, c)
  {
    var k := Current(ts, c);
    !StartsPostfix(k) && AssignmentOp(k).None? && Precedence(k) <= min
  }

  lemma {:induction false} PostfixEnds(m: Mode, ts: Stream, c: Cursor, x: Expr)
    requires In(ts, c)
    ensures !StartsPostfix(Current(ts, Postfix(m, ts, c, x).c))
    decreases Left(ts, c)
  {
    if StartsPostfix(Current(ts, c)) {
      var y := OnePostfix(m, ts, c, x);
      PostfixEnds(m, ts, y.c, y.v);
    }
  }

  lemma {:induction false} ClimbEnds(ts: Stream, c: Cursor, min: nat)
    requires In(ts, c)
    ensures EndsAt(ts, Climb(ts, c, min).c, min)
    decreases Left(ts, c), 1
  {
    var x := Primary(Pratt, ts, c);
    var y := Postfix(Pratt, ts, x.c, x.v);
    PostfixEnds(Pratt, ts, x.c, x.v);
    if AssignmentOp(Current(ts, y.c)).Some? {
      ClimbEnds(ts, Advance(ts, y.c), 0);
    } else {
      LoopEnds(ts, y.c, min, y.v);
    }
  }

  lemma {:induction false} LoopEnds(ts: Stream, c: Cursor, min: nat, lhs: Expr)
    requires In(ts, c) && EndsAt(ts, c, 10)
    ensures EndsAt(ts, Loop(ts, c, min, lhs).c, min)
    decreases Left(ts, c), 0
  {
    var p := Precedence(Current(ts, c));
    if p > min {
      var rhs := Climb(ts, Advance(ts, c), p);
      ClimbEnds(ts, Advance(ts, c), p);
      LoopEnds(ts, rhs.c, min, Ast.Binary(InfixOp(Current(ts, c)), lhs, rhs.v));
    }
  }

  // After an operand, levels 10 down to j of the layered grammar.
  function Chain(ts: Stream, c: Cursor, j: nat, lhs: Expr): (r: Parsed<Expr>)
    requires In(ts, c) && 1 <= j <= OPERAND_LEVEL
    ensures In(ts, r.c) && c.pos <= r.c.pos
    decreases OPERAND_LEVEL - j
  {
    if j == OPERAND_LEVEL then Parsed(lhs, c)
    else
      var x := Chain(ts, c, j + 1, lhs);
      Rest(ts, x.c, j, x.v)
  }

  lemma {:induction false} LayerIsChain(ts: Stream, c: Cursor, j: nat, x: Parsed<Expr>)
    requires In(ts, c) && 1 <= j <= OPERAND_LEVEL && x == Operand(ts, c)
    ensures Layer(ts, c, j) == Chain(ts, x.c, j, x.v)
    decreases OPERAND_LEVEL - j
  {
    if j < OPERAND_LEVEL {
      LayerIsChain(ts, c, j + 1, x);
    }
  }

  // Levels above the operator at hand leave things as they are.
  lemma {:induction false} ChainIdle(ts: Stream, c: Cursor, j: nat, lhs: Expr)
    requires In(ts, c) && 1 <= j <= OPERAND_LEVEL && Precedence(Current(ts, c)) < j
    ensures Chain(ts, c, j, lhs) == Parsed(lhs, c)
    decreases OPERAND_LEVEL - j
  {
    if j < OPERAND_LEVEL {
      ChainIdle(ts, c, j + 1, lhs);
    }
  }

  // Reading one operator and its right operand at its own level moves the chain of every
  // lower level on.
  lemma {:induction false} ChainMoves(ts: Stream, c: Cursor, p: nat, j: nat, lhs: Expr, rhs: Parsed<Expr>, both: Expr)
    requires In(ts, c) && In(ts, rhs.c) && 1 <= j <= p == Precedence(Current(ts, c))
    requires rhs == Layer(ts, Advance(ts, c), p + 1) && Precedence(Current(ts, rhs.c)) <= p
    requires both == Ast.Binary(InfixOp(Current(ts, c)), lhs, rhs.v)
    ensures Chain(ts, c, j, lhs) == Chain(ts, rhs.c, j, both)
    decreases OPERAND_LEVEL - j
  {
    if j == p {
      OwnLevelMoves(ts, c, p, lhs, rhs);
    } else {
      ChainMoves(ts, c, p, j + 1, lhs, rhs, both);
      ChainUp(ts, c, j, lhs, rhs.c, both);
    }
  }

  // The level of the operator itself.
  lemma OwnLevelMoves(ts: Stream, c: Cursor, p: nat, lhs: Expr, rhs: Parsed<Expr>)
    requires In(ts, c) && p == Precedence(Current(ts, c)) > 0 && rhs == Layer(ts, Advance(ts, c), p + 1)
    requires In(ts, rhs.c) && Precedence(Current(ts, rhs.c)) <= p
    ensures Chain(ts, c, p, lhs) == Chain(ts, rhs.c, p, Ast.Binary(InfixOp(Current(ts, c)), lhs, rhs.v))
  {
    ChainIdle(ts, c, p + 1, lhs);
    ChainIdle(ts, rhs.c, p + 1, Ast.Binary(InfixOp(Current(ts, c)), lhs, rhs.v));
  }

  lemma ChainUp(ts: Stream, c: Cursor, j: nat, lhs: Expr, d: Cursor, both: Expr)
    requires In(ts, c) && In(ts, d) && 1 <= j < OPERAND_LEVEL && Chain(ts, c, j + 1, lhs) == Chain(ts, d, j + 1, both)
    ensures Chain(ts, c, j, lhs) == Chain(ts, d, j, both)
  {
  }

  // The postfixes looked for after a right operand are never there.
  lemma LoopStep(ts: Stream, c: Cursor, min: nat, lhs: Expr, rhs: Parsed<Expr>)
    requires In(ts, c) && Precedence(Current(ts, c)) > min &&
      rhs == Climb(ts, Advance(ts, c), Precedence(Current(ts, c)))
    ensures EndsAt(ts, rhs.c, Precedence(Current(ts, c)))
    ensures Loop(ts, c, min, lhs) == Loop(ts, rhs.c, min, Ast.Binary(InfixOp(Current(ts, c)), lhs, rhs.v))
  {
    ClimbEnds(ts, Advance(ts, c), Precedence(Current(ts, c)));
  }

  // The loop above min is the chain of levels above min.
  lemma {:induction false} LoopIsChain(ts: Stream, c: Cursor, min: nat, lhs: Expr)
    requires In(ts, c) && min <= 10 && EndsAt(ts, c, 10)
    ensures Loop(ts, c, min, lhs) == Chain(ts, c, min + 1, lhs)
    decreases Left(ts, c), 2
  {
    var p := Precedence(Current(ts, c));
    if p <= min {
      ChainIdle(ts, c, min + 1, lhs);
    } else {
      var rhs := Climb(ts, Advance(ts, c), p);
      LoopStep(ts, c, min, lhs, rhs);
      ClimbIsLayer(ts, Advance(ts, c), p);
      var both := Ast.Binary(InfixOp(Current(ts, c)), lhs, rhs.v);
      OperatorRead(ts, c, p, min, lhs, rhs, both, Loop(ts, rhs.c, min, both));
    }
  }

  lemma {:induction false} OperatorRead(ts: Stream, c: Cursor, p: nat, min: nat, lhs: Expr, rhs: Parsed<Expr>,
                                        both: Expr,
                                        all: Parsed<Expr>)
    requires In(ts, c) && In(ts, rhs.c) && min < p == Precedence(Current(ts, c)) && c.pos < rhs.c.pos
    requires rhs == Layer(ts, Advance(ts, c), p + 1) && EndsAt(ts, rhs.c, p)
    requires both == Ast.Binary(InfixOp(Current(ts, c)), lhs, rhs.v) && all == Loop(ts, rhs.c, min, both)
    ensures Chain(ts, c, min + 1, lhs) == all
    decreases Left(ts, c), 1
  {
    LoopIsChain(ts, rhs.c, min, both);
    ChainMoves(ts, c, p, min + 1, lhs, rhs, both);
  }

  // The operand that both read first.
  lemma {:induction false} OperandSame(ts: Stream, c: Cursor, x: Parsed<Expr>, y: Parsed<Expr>)
    requires In(ts, c) && x == Primary(Pratt, ts, c) && y == Postfix(Pratt, ts, x.c, x.v)
    ensures x == Primary(Layered, ts, c) && y == Postfix(Layered, ts, x.c, x.v)
    ensures !StartsPostfix(Current(ts, y.c)) && (!Current(ts, c).Eof? ==> c.pos < y.c.pos)
    decreases Left(ts, c), 2
  {
    PrimarySame(ts, c);
    PostfixSame(ts, x.c, x.v);
    PostfixEnds(Pratt, ts, x.c, x.v);
  }

  lemma {:induction false} AssignmentSame(ts: Stream, c: Cursor, z: Parsed<Expr>, min: nat, both: Expr)
    requires In(ts, c) && min <= 10 && AssignmentOp(Current(ts, c)).Some? && z == Climb(ts, Advance(ts, c), 0)
    ensures z == Layer(ts, Advance(ts, c), LOWEST_LEVEL) && Chain(ts, z.c, min + 1, both) == Parsed(both, z.c)
    decreases Left(ts, c), 2
  {
    ClimbIsLayer(ts, Advance(ts, c), 0);
    AfterAssignment(ts, Advance(ts, c), z, min, both);
  }

  lemma AfterAssignment(ts: Stream, c: Cursor, z: Parsed<Expr>, min: nat, both: Expr)
    requires In(ts, c) && min <= 10 && z == Climb(ts, c, 0)
    ensures Chain(ts, z.c, min + 1, both) == Parsed(both, z.c)
  {
    ClimbEnds(ts, c, 0);
    IdleAt(ts, z.c, min + 1, both);
  }

  lemma IdleAt(ts: Stream, c: Cursor, j: nat, both: Expr)
    requires In(ts, c) && 1 <= j <= OPERAND_LEVEL && EndsAt(ts, c, 0)
    ensures Chain(ts, c, j, both) == Parsed(both, c)
  {
    ChainIdle(ts, c, j, both);
  }

  // What each of the two makes of an operand read as y.

  lemma ClimbFrom(ts: Stream, c: Cursor, min: nat, x: Parsed<Expr>, y: Parsed<Expr>, z: Parsed<Expr>)
    requires In(ts, c) && x == Primary(Pratt, ts, c) && y == Postfix(Pratt, ts, x.c, x.v)
    requires AssignmentOp(Current(ts, y.c)).Some? && z == Climb(ts, Advance(ts, y.c), 0)
    ensures Climb(ts, c, min) == Assigned(ts, y, z)
  {
  }

  lemma OperandFrom(ts: Stream, c: Cursor, x: Parsed<Expr>, y: Parsed<Expr>, z: Parsed<Expr>)
    requires In(ts, c) && x == Primary(Layered, ts, c) && y == Postfix(Layered, ts, x.c, x.v)
    requires AssignmentOp(Current(ts, y.c)).Some? && z == Layer(ts, Advance(ts, y.c), LOWEST_LEVEL)
    ensures Operand(ts, c) == Assigned(ts, y, z)
  {
  }

  lemma ClimbPlain(ts: Stream, c: Cursor, min: nat, x: Parsed<Expr>, y: Parsed<Expr>)
    requires In(ts, c) && x == Primary(Pratt, ts, c) && y == Postfix(Pratt, ts, x.c, x.v)
    requires AssignmentOp(Current(ts, y.c)).None?
    ensures Climb(ts, c, min) == Loop(ts, y.c, min, y.v)
  {
  }

  lemma OperandPlain(ts: Stream, c: Cursor, x: Parsed<Expr>, y: Parsed<Expr>)
    requires In(ts, c) && x == Primary(Layered, ts, c) && y == Postfix(Layered, ts, x.c, x.v)
    requires AssignmentOp(Current(ts, y.c)).None?
    ensures Operand(ts, c) == y
  {
  }

  // Starting at precedence min is starting at level min + 1: the same tree, the same end,
  // the same diagnostics, on every token stream.
  lemma {:induction false} ClimbIsLayer(ts: Stream, c: Cursor, min: nat)
    requires In(ts, c) && min <= 10
    ensures Climb(ts, c, min) == Layer(ts, c, min + 1)
    decreases Left(ts, c), 4
  {
    var x := Primary(Pratt, ts, c);
    var y := Postfix(Pratt, ts, x.c, x.v);
    OperandSame(ts, c, x, y);
    if AssignmentOp(Current(ts, y.c)).Some? {
      AssignmentIsLayer(ts, c, min, x, y);
    } else {
      ClimbPlain(ts, c, min, x, y);
      OperandPlain(ts, c, x, y);
      LoopIsChain(ts, y.c, min, y.v);
      LayerIsChain(ts, c, min + 1, y);
    }
  }

  lemma {:induction false} AssignmentIsLayer(ts: Stream, c: Cursor, min: nat, x: Parsed<Expr>, y: Parsed<Expr>)
    requires In(ts, c) && min <= 10 && In(ts, y.c) && c.pos <= y.c.pos && AssignmentOp(Current(ts, y.c)).Some?
    requires x == Primary(Pratt, ts, c) && y == Postfix(Pratt, ts, x.c, x.v)
    requires x == Primary(Layered, ts, c) && y == Postfix(Layered, ts, x.c, x.v)
    ensures Climb(ts, c, min) == Layer(ts, c, min + 1)
    decreases Left(ts, c), 3
  {
    var z := Climb(ts, Advance(ts, y.c), 0);
    AssignmentSame(ts, y.c, z, min, Assigned(ts, y, z).v);
    ClimbFrom(ts, c, min, x, y, z);
    OperandFrom(ts, c, x, y, z);
    LayerIsChain(ts, c, min + 1, Assigned(ts, y, z));
  }

  lemma {:induction false} WholeSame(ts: Stream, c: Cursor)
    requires In(ts, c)
    ensures Whole(Pratt, ts, c) == Whole(Layered, ts, c)
    decreases Left(ts, c), 5
  {
    ClimbIsLayer(ts, c, 0);
  }

  lemma {:induction false} PrimarySame(ts: Stream, c: Cursor)
    requires In(ts, c)
    ensures Primary(Pratt, ts, c) == Primary(Layered, ts, c)
    decreases Left(ts, c), 0
  {
    var k := Current(ts, c);
    var next := Advance(ts, c);
    if PrefixOp(k).Some? {
      PrimarySame(ts, next);
    } else if k.LParen? {
      WholeSame(ts, next);
    } else if k.KwArray? {
      ItemsSame(ts, Expect(ts, next, LBracket, "expected '[' after 'array'"), RBracket);
    }
  }

  lemma {:induction false} ItemsSame(ts: Stream, c: Cursor, close: Kind)
    requires In(ts, c)
    ensures Items(Pratt, ts, c, close) == Items(Layered, ts, c, close)
    decreases Left(ts, c), 7
  {
    if Current(ts, c) != close {
      SomeItemsSame(ts, c);
    }
  }

  lemma {:induction false} SomeItemsSame(ts: Stream, c: Cursor)
    requires In(ts, c)
    ensures SomeItems(Pratt, ts, c) == SomeItems(Layered, ts, c)
    decreases Left(ts, c), 6
  {
    WholeSame(ts, c);
    var x := Whole(Pratt, ts, c);
    if Current(ts, x.c).Comma? {
      SomeItemsSame(ts, Advance(ts, x.c));
    }
  }

  lemma {:induction false} PostfixSame(ts: Stream, c: Cursor, x: Expr)
    requires In(ts, c)
    ensures Postfix(Pratt, ts, c, x) == Postfix(Layered, ts, c, x)
    decreases Left(ts, c), 1
  {
    if StartsPostfix(Current(ts, c)) {
      OnePostfixSame(ts, c, x);
      var y := OnePostfix(Pratt, ts, c, x);
      PostfixSame(ts, y.c, y.v);
    }
  }

  lemma {:induction false} OnePostfixSame(ts: Stream, c: Cursor, x: Expr)
    requires In(ts, c) && StartsPostfix(Current(ts, c))
    ensures OnePostfix(Pratt, ts, c, x) == OnePostfix(Layered, ts, c, x)
    decreases Left(ts, c), 0
  {
    var next := Advance(ts, c);
    var k := Current(ts, c);
    if k.LParen? {
      ItemsSame(ts, next, RParen);
    } else if k.LBracket? {
      WholeSame(ts, next);
    } else if k.KwAs? {
      TypeSame(ts, next);
    }
  }

  lemma {:induction false} TypeSame(ts: Stream, c: Cursor)
    requires In(ts, c)
    ensures Type(Pratt, ts, c) == Type(Layered, ts, c)
    decreases Left(ts, c), 0
  {
    var next := Advance(ts, c);
    var k := Current(ts, c);
    if k.Star? {
      PointerTypeSame(ts, next);
    } else if k.LBracket? {
      BracketTypeSame(ts, next);
    } else if k.KwFn? || k.KwFun? {
      FunctionTypeSame(ts, next);
    }
  }

  lemma {:induction false} PointerTypeSame(ts: Stream, c: Cursor)
    requires In(ts, c)
    ensures PointerType(Pratt, ts, c) == PointerType(Layered, ts, c)
    decreases Left(ts, c), 1
  {
    TypeSame(ts, Optional(ts, c, KwMut));
  }

  lemma {:induction false} BracketTypeSame(ts: Stream, c: Cursor)
    requires In(ts, c)
    ensures BracketType(Pratt, ts, c) == BracketType(Layered, ts, c)
    decreases Left(ts, c), 5
  {
    TypeSame(ts, c);
    var t := Type(Pratt, ts, c);
    if Current(ts, t.c).Semicolon? {
      WholeSame(ts, Advance(ts, t.c));
    }
  }

  lemma {:induction false} FunctionTypeSame(ts: Stream, c: Cursor)
    requires In(ts, c)
    ensures FunctionType(Pratt, ts, c) == FunctionType(Layered, ts, c)
    decreases Left(ts, c), 2
  {
    var open := Expect(ts, c, LParen, "expected '(' in function type");
    var params := if Current(ts, open).RParen? then Parsed([], open) else Types(Pratt, ts, open);
    if !Current(ts, open).RParen? {
      TypesSame(ts, open);
    }
    var close := Expect(ts, params.c, RParen, "expected ')' in function type");
    if Current(ts, close).Arrow? {
      TypeSame(ts, Advance(ts, close));
    }
  }

  lemma {:induction false} TypesSame(ts: Stream, c: Cursor)
    requires In(ts, c)
    ensures Types(Pratt, ts, c) == Types(Layered, ts, c)
    decreases Left(ts, c), 1
  {
    TypeSame(ts, c);
    var t := Type(Pratt, ts, c);
    if Current(ts, t.c).Comma? {
      TypesSame(ts, Advance(ts, t.c));
    }
  }
}
