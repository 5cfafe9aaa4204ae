// The parser itself: a cursor that moves over the tokens and collects diagnostics. Every
// method does what the grammar functions say.
module Parsing {
  import opened Common
  import Ast
  import opened Tokens
  import Grammar
  import Statements
  import opened G = Grammar

  function Prepend<T>(xs: seq<T>, r: Parsed<seq<T>>): Parsed<seq<T>> {
    Parsed(xs + r.v, r.c)
  }

  lemma PrependOne<T>(xs: seq<T>, x: T, r: Parsed<seq<T>>)
    ensures Prepend(xs, Parsed([x] + r.v, r.c)) == Prepend(xs + [x], r)
    ensures Prepend(xs, Parsed([x], r.c)) == Parsed(xs + [x], r.c)
  {
    assert xs + ([x] + r.v) == xs + [x] + r.v;
  }

  lemma PrependNone<T>(r: Parsed<seq<T>>)
    ensures Prepend([], r) == r
  {
    assert [] + r.v == r.v;
  }

  lemma PrependEnd<T>(xs: seq<T>, c: Cursor)
    ensures Prepend(xs, Parsed([], c)) == Parsed(xs, c)
  {
    assert xs + [] == xs;
  }

  class Parser {
    const tokens: Stream
    var pos: nat
    var problems: seq<Problem>

    ghost predicate Valid()
      reads this
    {
      pos < |tokens|
    }

    ghost function At(): Cursor
      reads this
    {
      Cursor(pos, problems)
    }

    ghost function Remaining(): nat
      requires Valid()
      reads this
    {
      |tokens| - pos
    }

    constructor (tokens: Stream)
      ensures Valid() && this.tokens == tokens && At() == Cursor(0, [])
    {
      this.tokens := tokens;
      pos := 0;
      problems := [];
    }

    method Advance()
      requires Valid()
      modifies this`pos
      ensures Valid() && At() == Grammar.Advance(tokens, old(At()))
    {
      if !tokens[pos].kind.Eof? {
        pos := pos + 1;
      }
    }

    method Match(k: Kind) returns (found: bool)
      requires Valid() && !k.Eof?
      modifies this`pos
      ensures Valid() && At() == Grammar.Optional(tokens, old(At()), k) && found == (old(tokens[pos].kind) == k)
      ensures found ==> old(pos) < pos
    {
      found := tokens[pos].kind == k;
      if found {
        Advance();
      }
    }

    // The token taken as read.
    method Expect(k: Kind, message: string) returns (lexeme: string)
      requires Valid()
      modifies this
      ensures Valid() && At() == Grammar.Expect(tokens, old(At()), k, message) && lexeme == old(tokens[pos].lexeme)
    {
      lexeme := tokens[pos].lexeme;
      if tokens[pos].kind == k {
        Advance();
      } else {
        problems := problems + [Problem(pos, message)];
      }
    }

    method ParseExpr(min: nat) returns (e: Expr)
      requires Valid()
      modifies this
      ensures Valid() && Parsed(e, At()) == Grammar.Climb(tokens, old(At()), min)
      decreases Remaining(), 3
    {
      e := ParseOperand();
      var op := AssignmentOp(tokens[pos].kind);
      if op.Some? {
        Advance();
        var value := ParseExpr(0);
        return Ast.AssignExpr(op.value, e, value);
      }
      e := ParseInfix(min, e);
    }

    method ParseInfix(min: nat, lhs: Expr) returns (e: Expr)
      requires Valid()
      modifies this
      ensures Valid() && Parsed(e, At()) == Grammar.Loop(tokens, old(At()), min, lhs)
      decreases Remaining(), 2
    {
      e := lhs;
      ghost var whole := Grammar.Loop(tokens, At(), min, e);
      while min < Precedence(tokens[pos].kind)
        invariant Valid() && old(pos) <= pos
        invariant Grammar.Loop(tokens, At(), min, e) == whole
        decreases Remaining()
      {
        var k := tokens[pos].kind;
        Advance();
        var right := ParseExpr(Precedence(k));
        e := ParsePostfixExpr(Ast.Binary(InfixOp(k), e, right));
      }
    }

    method ParseOperand() returns (e: Expr)
      requires Valid()
      modifies this
      ensures Valid() && (!old(tokens[pos].kind).Eof? ==> old(pos) < pos)
      ensures var x := Grammar.Primary(Pratt, tokens, old(At()));
              Parsed(e, At()) == Grammar.Postfix(Pratt, tokens, x.c, x.v)
      decreases Remaining(), 2
    {
      e := ParsePrimaryExpr();
      e := ParsePostfixExpr(e);
    }

    method ParsePrimaryExpr() returns (e: Expr)
      requires Valid()
      modifies this
      ensures Valid() && Parsed(e, At()) == Grammar.Primary(Pratt, tokens, old(At()))
      decreases Remaining(), 0
    {
      var k := tokens[pos].kind;
      if PrefixOp(k).Some? {
        Advance();
        e := ParsePrimaryExpr();
        return Ast.Unary(PrefixOp(k).value, e);
      }
      if k.LParen? {
        Advance();
        e := ParseExpr(0);
        var _ := Expect(RParen, "expected ')' after expression");
        return;
      }
      var literal := Literal(tokens[pos]);
      if literal.Some? {
        Advance();
        return literal.value;
      }
      if k.KwArray? {
        Advance();
        e := ParseArray();
        return;
      }
      problems := problems + [Problem(pos, "expected an expression")];
      Advance();
      e := Ast.NilLit;
    }

    // After `array`.
    method ParseArray() returns (e: Expr)
      requires Valid()
      modifies this
      ensures Valid()
      ensures var xs := Grammar.Items(Pratt, tokens, Grammar.Expect(tokens, old(At()), LBracket,
                                                                    "expected '[' after 'array'"), RBracket);
              Parsed(e, At()) == Parsed(Ast.ArrayLit(xs.v), Grammar.Expect(tokens, xs.c, RBracket,
                                                                           "expected ']' after array elements"))
      decreases Remaining(), 5
    {
      var _ := Expect(LBracket, "expected '[' after 'array'");
      var elements := [];
      if !tokens[pos].kind.RBracket? {
        elements := ParseExprs();
      }
      var _ := Expect(RBracket, "expected ']' after array elements");
      e := Ast.ArrayLit(elements);
    }

    method ParseExprs() returns (es: seq<Expr>)
      requires Valid()
      modifies this
      ensures Valid() && Parsed(es, At()) == Grammar.SomeItems(Pratt, tokens, old(At()))
      decreases Remaining(), 4
    {
      es := [];
      ghost var whole := Grammar.SomeItems(Pratt, tokens, At());
      PrependNone(whole);
      var more := true;
      while more
        invariant Valid() && old(pos) <= pos
        invariant more ==> whole == Prepend(es, Grammar.SomeItems(Pratt, tokens, At()))
        invariant !more ==> whole == Parsed(es, At())
        decreases if more then 1 + Remaining() else 0
      {
        var e := ParseExpr(0);
        ghost var end := At();
        more := Match(Comma);
        PrependOne(es, e, if more then Grammar.SomeItems(Pratt, tokens, At()) else Parsed([], end));
        es := es + [e];
      }
    }

    method ParsePostfixExpr(start: Expr) returns (e: Expr)
      requires Valid()
      modifies this
      ensures Valid() && Parsed(e, At()) == Grammar.Postfix(Pratt, tokens, old(At()), start)
      decreases Remaining(), 1
    {
      e := start;
      ghost var whole := Grammar.Postfix(Pratt, tokens, At(), e);
      while StartsPostfix(tokens[pos].kind)
        invariant Valid() && old(pos) <= pos
        invariant Grammar.Postfix(Pratt, tokens, At(), e) == whole
        decreases Remaining()
      {
        e := ParseOnePostfix(e);
      }
    }

    method ParseOnePostfix(x: Expr) returns (e: Expr)
      requires Valid() && StartsPostfix(tokens[pos].kind)
      modifies this
      ensures Valid() && Parsed(e, At()) == Grammar.OnePostfix(Pratt, tokens, old(At()), x)
      decreases Remaining(), 0
    {
      var k := tokens[pos].kind;
      Advance();
      if k.LParen? {
        e := ParseCallArgs(x);
      } else if k.LBracket? {
        var i := ParseExpr(0);
        var _ := Expect(RBracket, "expected ']'");
        e := Ast.Index(x, i);
      } else if k.Dot? {
        var field := Expect(Identifier, "expected field name");
        e := Ast.Member(x, field);
      } else {
        var t := ParseType();
        e := Ast.Cast(x, t);
      }
    }

    method ParseCallArgs(callee: Expr) returns (e: Expr)
      requires Valid()
      modifies this
      ensures Valid()
      ensures var xs := Grammar.Items(Pratt, tokens, old(At()), RParen);
              Parsed(e, At()) == Parsed(Ast.Call(callee, xs.v), Grammar.Expect(tokens, xs.c, RParen,
                                                                               "expected ')' after arguments"))
      decreases Remaining(), 5
    {
      var args := [];
      if !tokens[pos].kind.RParen? {
        args := ParseExprs();
      }
      var _ := Expect(RParen, "expected ')' after arguments");
      e := Ast.Call(callee, args);
    }

    method ParseType() returns (t: Ast.TypeNode)
      requires Valid()
      modifies this
      ensures Valid() && Parsed(t, At()) == Grammar.Type(Pratt, tokens, old(At()))
      decreases Remaining(), 0
    {
      var k := tokens[pos].kind;
      if k.Star? {
        Advance();
        t := ParsePointerType();
      } else if k.LBracket? {
        Advance();
        t := ParseBracketType();
      } else if k.KwFn? || k.KwFun? {
        Advance();
        t := ParseFunctionType();
      } else {
        t := ParseNamedType();
      }
    }

    method ParsePointerType() returns (t: Ast.TypeNode)
      requires Valid()
      modifies this
      ensures Valid() && Parsed(t, At()) == Grammar.PointerType(Pratt, tokens, old(At()))
      decreases Remaining(), 1
    {
      var isMut := Match(KwMut);
      var inner := ParseType();
      t := Ast.PointerType(inner, isMut);
    }

    method ParseBracketType() returns (t: Ast.TypeNode)
      requires Valid()
      modifies this
      ensures Valid() && Parsed(t, At()) == Grammar.BracketType(Pratt, tokens, old(At()))
      decreases Remaining(), 4
    {
      var element := ParseType();
      var sized := Match(Semicolon);
      if sized {
        var size := ParseExpr(0);
        var _ := Expect(RBracket, "expected ']'");
        t := Ast.ArrayType(element, size);
      } else {
        var _ := Expect(RBracket, "expected ']'");
        t := Ast.SliceType(element);
      }
    }

    method ParseFunctionType() returns (t: Ast.TypeNode)
      requires Valid()
      modifies this
      ensures Valid() && Parsed(t, At()) == Grammar.FunctionType(Pratt, tokens, old(At()))
      decreases Remaining(), 2
    {
      var _ := Expect(LParen, "expected '(' in function type");
      var params := [];
      if !tokens[pos].kind.RParen? {
        params := ParseTypes();
      }
      var _ := Expect(RParen, "expected ')' in function type");
      var arrow := Match(Arrow);
      if arrow {
        var ret := ParseType();
        t := Ast.FunctionType(params, Some(ret));
      } else {
        t := Ast.FunctionType(params, None);
      }
    }

    method ParseTypes() returns (types: seq<Ast.TypeNode>)
      requires Valid()
      modifies this
      ensures Valid() && Parsed(types, At()) == Grammar.Types(Pratt, tokens, old(At()))
      decreases Remaining(), 1
    {
      types := [];
      ghost var whole := Grammar.Types(Pratt, tokens, At());
      PrependNone(whole);
      var more := true;
      while more
        invariant Valid() && old(pos) <= pos
        invariant more ==> whole == Prepend(types, Grammar.Types(Pratt, tokens, At()))
        invariant !more ==> whole == Parsed(types, At())
        decreases if more then 1 + Remaining() else 0
      {
        var t := ParseType();
        ghost var end := At();
        more := Match(Comma);
        PrependOne(types, t, if more then Grammar.Types(Pratt, tokens, At()) else Parsed([], end));
        types := types + [t];
      }
    }

    method ParseNamedType() returns (t: Ast.TypeNode)
      requires Valid()
      modifies this
      ensures Valid() && Parsed(t, At()) == Grammar.NamedType(tokens, old(At()))
    {
      var name := Expect(Identifier, "expected type name");
      t := ParseTypePath(name);
    }

    method ParseTypePath(start: string) returns (t: Ast.TypeNode)
      requires Valid()
      modifies this
      ensures Valid() && Parsed(t, At()) == Grammar.TypePath(tokens, old(At()), start)
    {
      var name := start;
      ghost var whole := Grammar.TypePath(tokens, At(), name);
      var more := Match(ColonColon);
      while more
        invariant Valid()
        invariant more ==>
          pos > 0 && tokens[pos - 1].kind.ColonColon? &&
          Grammar.TypePath(tokens, Cursor(pos - 1, problems), name) == whole
        invariant !more ==> whole == Parsed(Ast.NamedType(name), At())
        decreases if more then 1 + Remaining() else 0
      {
        var part := Expect(Identifier, "expected type name component");
        name := name + "::" + part;
        more := Match(ColonColon);
      }
      t := Ast.NamedType(name);
    }

    // Statements.

    method ParseStmt() returns (s: Ast.Stmt)
      requires Valid()
      modifies this
      ensures Valid() && Parsed(s, At()) == Statements.Statement(tokens, old(At()))
      decreases Remaining(), 1
    {
      var k := tokens[pos].kind;
      if k in {KwIf, KwEf, KwMatch, KwWhile, KwVloop, KwFor, KwReturn, KwBreak, KwContinue} {
        Advance();
        s := ParseKeywordStmt(k);
      } else if k.LBrace? {
        s := ParseBlock();
      } else if k in {KwLet, KwVar, KwConst} {
        s := ParseVarDecl();
      } else {
        var e := ParseExpr(0);
        var _ := Match(Semicolon);
        s := Ast.ExprStmt(e);
      }
    }

    // After the keyword k.
    method ParseKeywordStmt(k: Kind) returns (s: Ast.Stmt)
      requires Valid() && k in {KwIf, KwEf, KwMatch, KwWhile, KwVloop, KwFor, KwReturn, KwBreak, KwContinue}
      modifies this
      ensures Valid() && Parsed(s, At()) == Statements.AfterKeyword(tokens, old(At()), k)
      decreases Remaining(), 5
    {
      if k.KwIf? || k.KwEf? {
        s := ParseIfStmt();
      } else if k.KwMatch? {
        s := ParseMatchStmt();
      } else if k.KwWhile? {
        s := ParseWhileStmt();
      } else if k.KwVloop? {
        s := ParseVloopStmt();
      } else if k.KwFor? {
        s := ParseForStmt();
      } else if k.KwReturn? {
        s := ParseReturnStmt();
      } else {
        var _ := Match(Semicolon);
        s := if k.KwBreak? then Ast.Break else Ast.Continue;
      }
    }

    method ParseBlock() returns (s: Ast.Stmt)
      requires Valid()
      modifies this
      ensures Valid() && Parsed(s, At()) == Statements.Block(tokens, old(At()))
      decreases Remaining(), if tokens[pos].kind.LBrace? then 0 else 3
    {
      var _ := Expect(LBrace, "expected '{'");
      var stmts := ParseStmts();
      var _ := Expect(RBrace, "expected '}'");
      s := Ast.Block(stmts);
    }

    method ParseStmts() returns (ss: seq<Ast.Stmt>)
      requires Valid()
      modifies this
      ensures Valid() && Parsed(ss, At()) == Statements.Statements(tokens, old(At()))
      decreases Remaining(), 2
    {
      ss := [];
      ghost var whole := Statements.Statements(tokens, At());
      PrependNone(whole);
      while !tokens[pos].kind.RBrace? && !tokens[pos].kind.Eof?
        invariant Valid() && old(pos) <= pos
        invariant whole == Prepend(ss, Statements.Statements(tokens, At()))
        decreases Remaining()
      {
        var s := ParseStmt();
        PrependOne(ss, s, Statements.Statements(tokens, At()));
        ss := ss + [s];
      }
      PrependEnd(ss, At());
    }

    method ParseBody() returns (s: Ast.Stmt)
      requires Valid()
      modifies this
      ensures Valid() && Parsed(s, At()) == Statements.Body(tokens, old(At()))
      decreases Remaining(), 2
    {
      if tokens[pos].kind.LBrace? {
        s := ParseBlock();
      } else {
        s := ParseStmt();
      }
    }

    method ParseIfStmt() returns (s: Ast.Stmt)
      requires Valid()
      modifies this
      ensures Valid() && Parsed(s, At()) == Statements.IfRest(tokens, old(At()))
      decreases Remaining(), 4
    {
      var _ := Match(LParen);
      var cond := ParseExpr(0);
      var _ := Match(RParen);
      var branch := ParseBody();
      var other := ParseElse();
      s := Ast.If(cond, branch, other);
    }

    method ParseElse() returns (s: Option<Ast.Stmt>)
      requires Valid()
      modifies this
      ensures Valid() && Parsed(s, At()) == Statements.ElsePart(tokens, old(At()))
      decreases Remaining(), 3
    {
      var k := tokens[pos].kind;
      if k.KwEf? || (k.KwElse? && Statements.Peek(tokens, Cursor(pos, problems)).KwIf?) {
        Advance();
        var _ := Match(KwIf);
        var other := ParseIfStmt();
        s := Some(other);
      } else if k.KwEl? || k.KwElse? {
        Advance();
        var other := ParseBody();
        s := Some(other);
      } else {
        s := None;
      }
    }

    method ParseWhileStmt() returns (s: Ast.Stmt)
      requires Valid()
      modifies this
      ensures Valid() && Parsed(s, At()) == Statements.WhileRest(tokens, old(At()))
      decreases Remaining(), 4
    {
      var cond := ParseExpr(0);
      var body := ParseBlock();
      s := Ast.While(cond, body);
    }

    method ParseVloopStmt() returns (s: Ast.Stmt)
      requires Valid()
      modifies this
      ensures Valid() && Parsed(s, At()) == Statements.VloopRest(tokens, old(At()))
      decreases Remaining(), 4
    {
      var _ := Expect(LParen, "expected '(' after 'vloop'");
      var cond := ParseExpr(0);
      var _ := Expect(RParen, "expected ')' after vloop condition");
      var braced := tokens[pos].kind.LBrace?;
      var body := ParseBody();
      s := Ast.Vloop(cond, if braced then body else Ast.Block([body]));
    }

    method ParseForStmt() returns (s: Ast.Stmt)
      requires Valid()
      modifies this
      ensures Valid() && Parsed(s, At()) == Statements.ForRest(tokens, old(At()))
      decreases Remaining(), 4
    {
      var x := Expect(Identifier, "expected loop variable");
      var _ := Expect(KwIn, "expected 'in' in for loop");
      var range := ParseExpr(0);
      var body := ParseBlock();
      s := Ast.For(x, range, body);
    }

    method ParseReturnStmt() returns (s: Ast.Stmt)
      requires Valid()
      modifies this
      ensures Valid() && Parsed(s, At()) == Statements.ReturnRest(tokens, old(At()))
      decreases Remaining(), 4
    {
      var k := tokens[pos].kind;
      var value: Option<Expr> := None;
      if !k.Semicolon? && !k.RBrace? && !k.Eof? {
        var e := ParseExpr(0);
        value := Some(e);
      }
      var _ := Match(Semicolon);
      s := Ast.Return(value);
    }

    method ParseMatchStmt() returns (s: Ast.Stmt)
      requires Valid()
      modifies this
      ensures Valid() && Parsed(s, At()) == Statements.MatchRest(tokens, old(At()))
      decreases Remaining(), 4
    {
      var _ := Match(LParen);
      var subject := ParseExpr(0);
      var _ := Match(RParen);
      var _ := Expect(LBrace, "expected '{' after match subject");
      var arms := ParseArms();
      var _ := Expect(RBrace, "expected '}' after match arms");
      s := Ast.Match(subject, arms);
    }

    method ParseArms() returns (arms: seq<Ast.MatchArm>)
      requires Valid()
      modifies this
      ensures Valid() && Parsed(arms, At()) == Statements.Arms(tokens, old(At()))
      decreases Remaining(), 3
    {
      arms := [];
      ghost var whole := Statements.Arms(tokens, At());
      PrependNone(whole);
      while !tokens[pos].kind.RBrace? && !tokens[pos].kind.Eof?
        invariant Valid() && old(pos) <= pos
        invariant whole == Prepend(arms, Statements.Arms(tokens, At()))
        decreases Remaining()
      {
        var arm := ParseArm();
        PrependOne(arms, arm, Statements.Arms(tokens, At()));
        arms := arms + [arm];
      }
      PrependEnd(arms, At());
    }

    method ParseArm() returns (arm: Ast.MatchArm)
      requires Valid() && !tokens[pos].kind.Eof?
      modifies this
      ensures Valid() && Parsed(arm, At()) == Statements.Arm(tokens, old(At()))
      decreases Remaining(), 2
    {
      var pattern := ParsePattern();
      var _ := Expect(FatArrow, "expected '=>' in match arm");
      var body := ParseBody();
      var _ := Match(Comma);
      arm := Ast.MatchArm(pattern, body);
    }

    method ParsePattern() returns (p: Option<Expr>)
      requires Valid()
      modifies this
      ensures Valid() && Parsed(p, At()) == Statements.Pattern(tokens, old(At()))
      decreases Remaining(), 4
    {
      if Statements.IsWildcard(tokens[pos]) {
        Advance();
        p := None;
      } else {
        var e := ParseExpr(0);
        p := Some(e);
      }
    }

    method ParseVarDecl() returns (s: Ast.Stmt)
      requires Valid() && tokens[pos].kind in {KwLet, KwVar, KwConst}
      modifies this
      ensures Valid() && Parsed(s, At()) == Statements.Variable(tokens, old(At()))
      decreases Remaining(), 0
    {
      var kind := Statements.KindOfVariable(tokens[pos].kind);
      Advance();
      var name := Expect(Identifier, "expected variable name");
      SkipType(Colon);
      var init: Option<Expr> := None;
      var found := Match(Kind.Eq);
      if found {
        var e := ParseExpr(0);
        init := Some(e);
      }
      var _ := Match(Semicolon);
      s := Ast.VarDecl(kind, name, init);
    }

    method SkipType(before: Kind)
      requires Valid() && !before.Eof?
      modifies this
      ensures Valid() && At() == Statements.SkipType(tokens, old(At()), before)
      decreases Remaining(), 4
    {
      var found := Match(before);
      if found {
        var _ := ParseType();
      }
    }

    // Declarations.

    method ParseTopLevelDecl() returns (d: Option<Ast.Decl>)
      requires Valid() && Statements.Plain(tokens) && Statements.IsDeclaration(tokens[pos].kind)
      modifies this
      ensures Valid() && Parsed(d, At()) == Statements.Declaration(tokens, old(At()))
    {
      var _ := Match(KwPub);
      var k := tokens[pos].kind;
      if k in {KwLet, KwVar, KwConst} {
        var v := ParseVarDecl();
        return Some(Ast.Global(v));
      }
      if k in {KwFn, KwFun, KwType, KwImport} {
        Advance();
        var found := ParseDeclRest(k);
        return Some(found);
      }
      problems := problems + [Problem(pos, "expected a top-level declaration")];
      Synchronize();
      d := None;
    }

    method ParseDeclRest(k: Kind) returns (d: Ast.Decl)
      requires Valid() && k in {KwFn, KwFun, KwType, KwImport}
      modifies this
      ensures Valid() && Parsed(d, At()) == Statements.DeclRest(tokens, old(At()), k)
    {
      if k.KwFn? || k.KwFun? {
        d := ParseFunctionDecl();
      } else if k.KwType? {
        d := ParseTypeAliasDecl();
      } else {
        d := ParseImportDecl();
      }
    }

    method ParseImportDecl() returns (d: Ast.Decl)
      requires Valid()
      modifies this
      ensures Valid() && Parsed(d, At()) == Statements.ImportRest(tokens, old(At()))
    {
      var path := Expect(Identifier, "expected module path");
      path := ParseDottedPath(path);
      var renamed := Match(KwAs);
      var alias: Option<string> := None;
      if renamed {
        var name := Expect(Identifier, "expected alias name");
        alias := Some(name);
      }
      var _ := Match(Semicolon);
      d := Ast.Import(path, alias);
    }

    method ParseDottedPath(start: string) returns (path: string)
      requires Valid()
      modifies this
      ensures Valid() && Parsed(path, At()) == Statements.DottedPath(tokens, old(At()), start)
    {
      path := start;
      ghost var whole := Statements.DottedPath(tokens, At(), path);
      while tokens[pos].kind.Dot?
        invariant Valid() && Statements.DottedPath(tokens, At(), path) == whole
        decreases Remaining()
      {
        Advance();
        var part := Expect(Identifier, "expected module path component");
        path := path + "." + part;
      }
    }

    method ParseTypeAliasDecl() returns (d: Ast.Decl)
      requires Valid()
      modifies this
      ensures Valid() && Parsed(d, At()) == Statements.AliasRest(tokens, old(At()))
    {
      var name := Expect(Identifier, "expected type alias name");
      var _ := Expect(Kind.Eq, "expected '=' in type alias");
      var t := ParseType();
      var _ := Match(Semicolon);
      d := Ast.Alias(name, t);
    }

    method ParseFunctionDecl() returns (d: Ast.Decl)
      requires Valid()
      modifies this
      ensures Valid() && Parsed(d, At()) == Statements.FunctionRest(tokens, old(At()))
    {
      var name := Expect(Identifier, "expected function name");
      var _ := Expect(LParen, "expected '(' after function name");
      var params := [];
      if !tokens[pos].kind.RParen? {
        params := ParseParams();
      }
      var _ := Expect(RParen, "expected ')' after parameters");
      SkipType(Arrow);
      var body: Ast.Stmt;
      if tokens[pos].kind.LBrace? {
        body := ParseBlock();
      } else {
        var stmts := ParseOpenStmts();
        body := Ast.Block(stmts);
      }
      d := Ast.Function(Ast.FunctionDecl(name, params, Some(body)));
    }

    method ParseParams() returns (params: seq<string>)
      requires Valid()
      modifies this
      ensures Valid() && Parsed(params, At()) == Statements.Params(tokens, old(At()))
    {
      params := [];
      ghost var whole := Statements.Params(tokens, At());
      PrependNone(whole);
      var more := true;
      while more
        invariant Valid()
        invariant more ==> whole == Prepend(params, Statements.Params(tokens, At()))
        invariant !more ==> whole == Parsed(params, At())
        decreases if more then 1 + Remaining() else 0
      {
        var name := ParseParam();
        more := MoreParams();
        PrependOne(params, name, if more then Statements.Params(tokens, At()) else Parsed([], At()));
        params := params + [name];
      }
    }

    method MoreParams() returns (more: bool)
      requires Valid()
      modifies this`pos
      ensures Valid() && more == Statements.MoreParams(tokens, old(At())) &&
        At() == Grammar.Optional(tokens, old(At()), Comma)
      ensures more ==> old(pos) < pos
    {
      more := Match(Comma);
      more := more && !tokens[pos].kind.RParen?;
    }

    method ParseParam() returns (name: string)
      requires Valid()
      modifies this
      ensures Valid() && Parsed(name, At()) == Statements.Param(tokens, old(At()))
    {
      var _ := Match(KwMut);
      name := Expect(Identifier, "expected parameter name");
      var _ := Expect(Colon, "expected ':' after parameter name");
      var _ := ParseType();
    }

    method ParseOpenStmts() returns (ss: seq<Ast.Stmt>)
      requires Valid()
      modifies this
      ensures Valid() && Parsed(ss, At()) == Statements.OpenStatements(tokens, old(At()))
    {
      ss := [];
      ghost var whole := Statements.OpenStatements(tokens, At());
      PrependNone(whole);
      while !tokens[pos].kind.Eof? && !Statements.StartsDecl(tokens[pos].kind)
        invariant Valid() && whole == Prepend(ss, Statements.OpenStatements(tokens, At()))
        decreases Remaining()
      {
        var s := ParseStmt();
        PrependOne(ss, s, Statements.OpenStatements(tokens, At()));
        ss := ss + [s];
      }
      PrependEnd(ss, At());
    }

    method Synchronize()
      requires Valid()
      modifies this`pos
      ensures Valid() && At() == Statements.Synchronize(tokens, old(At()))
    {
      ghost var end := Statements.Synchronize(tokens, At());
      while !tokens[pos].kind.Eof?
        invariant Valid() && Statements.Synchronize(tokens, At()) == end
        decreases Remaining()
      {
        if tokens[pos].kind.Semicolon? {
          Advance();
          return;
        }
        if Statements.Resumes(tokens[pos].kind) {
          return;
        }
        Advance();
      }
    }

    // A whole file, from its first token.
    method Parse() returns (m: Ast.Module)
      requires Valid() && At() == Cursor(0, []) && Statements.Plain(tokens)
      modifies this
      ensures Valid() && Parsed(m, At()) == Statements.File(tokens)
    {
      var name := ParseModuleName();
      var decls, main := ParseEntries(name);
      m := Ast.Module(name, Statements.WithMain(decls, main));
    }

    method ParseModuleName() returns (name: string)
      requires Valid()
      modifies this
      ensures Valid() && Parsed(name, At()) == Statements.ModuleName(tokens, old(At()))
    {
      name := "<anon>";
      var named := Match(KwModule);
      if named {
        name := Expect(Identifier, "expected module name");
        var _ := Match(Semicolon);
      }
    }

    method ParseEntries(name: string) returns (decls: seq<Ast.Decl>, main: seq<Ast.Stmt>)
      requires Valid() && Statements.Plain(tokens)
      modifies this
      ensures Valid() && Parsed((decls, main), At()) == Statements.Entries(tokens, old(At()), name, [], [])
    {
      decls, main := [], [];
      ghost var whole := Statements.Entries(tokens, At(), name, [], []);
      while !tokens[pos].kind.Eof?
        invariant Valid() && Statements.Entries(tokens, At(), name, decls, main) == whole
        decreases Remaining()
      {
        if Statements.IsDeclaration(tokens[pos].kind) {
          var d := ParseTopLevelDecl();
          if d.Some? {
            main := main + Statements.CalledHere(name, main, d.value);
            decls := decls + [d.value];
          }
        } else {
          var s := ParseStmt();
          main := main + [s];
        }
      }
    }
  }
}
