// Parsing statements, declarations and whole files, as functions of the token stream and
// the cursor. Every function ends on every stream: what it leaves unread never grows, and a
// statement that is not at Eof uses up a token.
module Statements {
  import opened Common
  import Ast
  import opened Tokens
  import opened Grammar

  // Statements.

  function Statement(ts: Stream, c: Cursor): (r: Parsed<Ast.Stmt>)
    requires In(ts, c)
    ensures In(ts, r.c) && c.pos <= r.c.pos
    ensures !Current(ts, c).Eof? ==> c.pos < r.c.pos
    decreases Left(ts, c), 1
  {
    var next := Advance(ts, c);
    var k := Current(ts, c);
    if k in {KwIf, KwEf, KwMatch, KwWhile, KwVloop, KwFor, KwReturn, KwBreak, KwContinue} then AfterKeyword(ts, next, k)
    else if k.LBrace? then Block(ts, c)
    else if k in {KwLet, KwVar, KwConst} then Variable(ts, c)
    else
      var e := Climb(ts, c, 0);
      Parsed(Ast.ExprStmt(e.v), Optional(ts, e.c, Semicolon))
  }

  function AfterKeyword(ts: Stream, c: Cursor, k: Kind): (r: Parsed<Ast.Stmt>)
    requires In(ts, c) && k in {KwIf, KwEf, KwMatch, KwWhile, KwVloop, KwFor, KwReturn, KwBreak, KwContinue}
    ensures In(ts, r.c) && c.pos <= r.c.pos
    decreases Left(ts, c), 5
  {
    if k.KwIf? || k.KwEf? then IfRest(ts, c)
    else if k.KwMatch? then MatchRest(ts, c)
    else if k.KwWhile? then WhileRest(ts, c)
    else if k.KwVloop? then VloopRest(ts, c)
    else if k.KwFor? then ForRest(ts, c)
    else if k.KwReturn? then ReturnRest(ts, c)
    else Parsed(if k.KwBreak? then Ast.Break else Ast.Continue, Optional(ts, c, Semicolon))
  }

  function Block(ts: Stream, c: Cursor): (r: Parsed<Ast.Stmt>)
    requires In(ts, c)
    ensures In(ts, r.c) && c.pos <= r.c.pos
    ensures Current(ts, c).LBrace? ==> c.pos < r.c.pos
    decreases Left(ts, c), if Current(ts, c).LBrace? then 0 else 3
  {
    var open := Expect(ts, c, LBrace, "expected '{'");
    var ss := Statements(ts, open);
    Parsed(Ast.Block(ss.v), Expect(ts, ss.c, RBrace, "expected '}'"))
  }

  // Up to a closing brace or the end of the stream.
  function Statements(ts: Stream, c: Cursor): (r: Parsed<seq<Ast.Stmt>>)
    requires In(ts, c)
    ensures In(ts, r.c) && c.pos <= r.c.pos
    ensures Current(ts, r.c).RBrace? || Current(ts, r.c).Eof?
    decreases Left(ts, c), 2
  {
    if Current(ts, c).RBrace? || Current(ts, c).Eof? then Parsed([], c)
    else
      var s := Statement(ts, c);
      var rest := Statements(ts, s.c);
      Parsed([s.v] + rest.v, rest.c)
  }

  // A braced block or a single statement.
  function Body(ts: Stream, c: Cursor): (r: Parsed<Ast.Stmt>)
    requires In(ts, c)
    ensures In(ts, r.c) && c.pos <= r.c.pos
    decreases Left(ts, c), 2
  {
    if Current(ts, c).LBrace? then Block(ts, c) else Statement(ts, c)
  }

  // After the keyword. The condition may stand in parentheses.
  function IfRest(ts: Stream, c: Cursor): (r: Parsed<Ast.Stmt>)
    requires In(ts, c)
    ensures In(ts, r.c) && c.pos <= r.c.pos
    decreases Left(ts, c), 4
  {
    var cond := Climb(ts, Optional(ts, c, LParen), 0);
    var branch := Body(ts, Optional(ts, cond.c, RParen));
    var other := ElsePart(ts, branch.c);
    Parsed(Ast.If(cond.v, branch.v, other.v), other.c)
  }

  function Peek(ts: Stream, c: Cursor): Kind
    requires In(ts, c)
  {
    if c.pos + 1 < |ts| then ts[c.pos + 1].kind else Eof
  }

  function ElsePart(ts: Stream, c: Cursor): (r: Parsed<Option<Ast.Stmt>>)
    requires In(ts, c)
    ensures In(ts, r.c) && c.pos <= r.c.pos
    decreases Left(ts, c), 3
  {
    if Current(ts, c).KwEf? || (Current(ts, c).KwElse? && Peek(ts, c).KwIf?) then
      var s := IfRest(ts, Optional(ts, Advance(ts, c), KwIf));
      Parsed(Some(s.v), s.c)
    else if Current(ts, c).KwEl? || Current(ts, c).KwElse? then
      var s := Body(ts, Advance(ts, c));
      Parsed(Some(s.v), s.c)
    else Parsed(None, c)
  }

  function WhileRest(ts: Stream, c: Cursor): (r: Parsed<Ast.Stmt>)
    requires In(ts, c)
    ensures In(ts, r.c) && c.pos <= r.c.pos
    decreases Left(ts, c), 4
  {
    var cond := Climb(ts, c, 0);
    var body := Block(ts, cond.c);
    Parsed(Ast.While(cond.v, body.v), body.c)
  }

  // A single statement becomes a block of one.
  function VloopRest(ts: Stream, c: Cursor): (r: Parsed<Ast.Stmt>)
    requires In(ts, c)
    ensures In(ts, r.c) && c.pos <= r.c.pos
    decreases Left(ts, c), 4
  {
    var cond := Climb(ts, Expect(ts, c, LParen, "expected '(' after 'vloop'"), 0);
    var start := Expect(ts, cond.c, RParen, "expected ')' after vloop condition");
    var body := Body(ts, start);
    Parsed(Ast.Vloop(cond.v, if Current(ts, start).LBrace? then body.v else Ast.Block([body.v])), body.c)
  }

  function ForRest(ts: Stream, c: Cursor): (r: Parsed<Ast.Stmt>)
    requires In(ts, c)
    ensures In(ts, r.c) && c.pos <= r.c.pos
    decreases Left(ts, c), 4
  {
    var x := Expect(ts, c, Identifier, "expected loop variable");
    var range := Climb(ts, Expect(ts, x, KwIn, "expected 'in' in for loop"), 0);
    var body := Block(ts, range.c);
    Parsed(Ast.For(ts[c.pos].lexeme, range.v, body.v), body.c)
  }

  function ReturnRest(ts: Stream, c: Cursor): (r: Parsed<Ast.Stmt>)
    requires In(ts, c)
    ensures In(ts, r.c) && c.pos <= r.c.pos
  {
    if Current(ts, c).Semicolon? || Current(ts, c).RBrace? || Current(ts, c).Eof? then
      Parsed(Ast.Return(None), Optional(ts, c, Semicolon))
    else
      var e := Climb(ts, c, 0);
      Parsed(Ast.Return(Some(e.v)), Optional(ts, e.c, Semicolon))
  }

  function MatchRest(ts: Stream, c: Cursor): (r: Parsed<Ast.Stmt>)
    requires In(ts, c)
    ensures In(ts, r.c) && c.pos <= r.c.pos
    decreases Left(ts, c), 4
  {
    var subject := Climb(ts, Optional(ts, c, LParen), 0);
    var open := Expect(ts, Optional(ts, subject.c, RParen), LBrace, "expected '{' after match subject");
    var arms := Arms(ts, open);
    Parsed(Ast.Match(subject.v, arms.v), Expect(ts, arms.c, RBrace, "expected '}' after match arms"))
  }

  function Arms(ts: Stream, c: Cursor): (r: Parsed<seq<Ast.MatchArm>>)
    requires In(ts, c)
    ensures In(ts, r.c) && c.pos <= r.c.pos
    ensures Current(ts, r.c).RBrace? || Current(ts, r.c).Eof?
    decreases Left(ts, c), 3
  {
    if Current(ts, c).RBrace? || Current(ts, c).Eof? then Parsed([], c)
    else
      var arm := Arm(ts, c);
      var rest := Arms(ts, arm.c);
      Parsed([arm.v] + rest.v, rest.c)
  }

  function Arm(ts: Stream, c: Cursor): (r: Parsed<Ast.MatchArm>)
    requires In(ts, c) && !Current(ts, c).Eof?
    ensures In(ts, r.c) && c.pos < r.c.pos
    decreases Left(ts, c), 2
  {
    var p := Pattern(ts, c);
    var body := Body(ts, Expect(ts, p.c, FatArrow, "expected '=>' in match arm"));
    Parsed(Ast.MatchArm(p.v, body.v), Optional(ts, body.c, Comma))
  }

  predicate IsWildcard(t: Token) {
    t.kind.Identifier? && t.lexeme == "_"
  }

  function Pattern(ts: Stream, c: Cursor): (r: Parsed<Option<Expr>>)
    requires In(ts, c)
    ensures In(ts, r.c) && c.pos <= r.c.pos
    ensures !Current(ts, c).Eof? ==> c.pos < r.c.pos
  {
    if IsWildcard(ts[c.pos]) then Parsed(None, Advance(ts, c))
    else
      var e := Climb(ts, c, 0);
      Parsed(Some(e.v), e.c)
  }

  function KindOfVariable(k: Kind): Ast.VarKind {
    match k
    case KwVar => Ast.Var
    case KwConst => Ast.Const
    case _ => Ast.Let
  }

  // The declared type is read, but the lowering does not look at it.
  function Variable(ts: Stream, c: Cursor): (r: Parsed<Ast.Stmt>)
    requires In(ts, c) && Current(ts, c) in {KwLet, KwVar, KwConst}
    ensures In(ts, r.c) && c.pos < r.c.pos
  {
    var name := Advance(ts, c);
    var typed := SkipType(ts, Expect(ts, name, Identifier, "expected variable name"), Colon);
    var init := if Current(ts, typed).Eq? then InitialValue(ts, Advance(ts, typed)) else Parsed(None, typed);
    Parsed(Ast.VarDecl(KindOfVariable(Current(ts, c)), ts[name.pos].lexeme, init.v), Optional(ts, init.c, Semicolon))
  }

  function SkipType(ts: Stream, c: Cursor, before: Kind): (d: Cursor)
    requires In(ts, c)
    ensures In(ts, d) && c.pos <= d.pos
  {
    if Current(ts, c) == before then Type(Pratt, ts, Advance(ts, c)).c else c
  }

  function InitialValue(ts: Stream, c: Cursor): (r: Parsed<Option<Expr>>)
    requires In(ts, c)
    ensures In(ts, r.c) && c.pos <= r.c.pos
  {
    var e := Climb(ts, c, 0);
    Parsed(Some(e.v), e.c)
  }

  // Declarations.

  // The loops over the fields of a structure and the variants of an enumeration need not
  // end; files that declare them are set apart.
  predicate Plain(ts: Stream) {
    forall i :: 0 <= i < |ts| ==> !ts[i].kind.KwStruct? && !ts[i].kind.KwEnum?
  }

  function ImportRest(ts: Stream, c: Cursor): (r: Parsed<Ast.Decl>)
    requires In(ts, c)
    ensures In(ts, r.c) && c.pos <= r.c.pos
  {
    var path := DottedPath(ts, Expect(ts, c, Identifier, "expected module path"), ts[c.pos].lexeme);
    if Current(ts, path.c).KwAs? then
      var next := Advance(ts, path.c);
      var end := Optional(ts, Expect(ts, next, Identifier, "expected alias name"), Semicolon);
      Parsed(Ast.Import(path.v, Some(ts[next.pos].lexeme)), end)
    else Parsed(Ast.Import(path.v, None), Optional(ts, path.c, Semicolon))
  }

  function DottedPath(ts: Stream, c: Cursor, path: string): (r: Parsed<string>)
    requires In(ts, c)
    ensures In(ts, r.c) && c.pos <= r.c.pos
    decreases Left(ts, c)
  {
    if Current(ts, c).Dot? then
      var next := Advance(ts, c);
      DottedPath(ts, Expect(ts, next, Identifier, "expected module path component"), path + "." + ts[next.pos].lexeme)
    else Parsed(path, c)
  }

  function AliasRest(ts: Stream, c: Cursor): (r: Parsed<Ast.Decl>)
    requires In(ts, c)
    ensures In(ts, r.c) && c.pos <= r.c.pos
  {
    var name := Expect(ts, c, Identifier, "expected type alias name");
    var t := Type(Pratt, ts, Expect(ts, name, Kind.Eq, "expected '=' in type alias"));
    Parsed(Ast.Alias(ts[c.pos].lexeme, t.v), Optional(ts, t.c, Semicolon))
  }

  function FunctionRest(ts: Stream, c: Cursor): (r: Parsed<Ast.Decl>)
    requires In(ts, c)
    ensures In(ts, r.c) && c.pos <= r.c.pos
  {
    var name := Expect(ts, c, Identifier, "expected function name");
    var open := Expect(ts, name, LParen, "expected '(' after function name");
    var params := if Current(ts, open).RParen? then Parsed([], open) else Params(ts, open);
    var close := SkipType(ts, Expect(ts, params.c, RParen, "expected ')' after parameters"), Arrow);
    var body := if Current(ts, close).LBrace? then Block(ts, close) else OpenBody(ts, close);
    Parsed(Ast.Function(Ast.FunctionDecl(ts[c.pos].lexeme, params.v, Some(body.v))), body.c)
  }

  function Param(ts: Stream, c: Cursor): (r: Parsed<string>)
    requires In(ts, c)
    ensures In(ts, r.c) && c.pos <= r.c.pos
  {
    var name := Optional(ts, c, KwMut);
    var colon := Expect(ts, name, Identifier, "expected parameter name");
    var t := Type(Pratt, ts, Expect(ts, colon, Colon, "expected ':' after parameter name"));
    Parsed(ts[name.pos].lexeme, t.c)
  }

  predicate MoreParams(ts: Stream, c: Cursor)
    requires In(ts, c)
  {
    Current(ts, c).Comma? && !Current(ts, Advance(ts, c)).RParen?
  }

  function Params(ts: Stream, c: Cursor): (r: Parsed<seq<string>>)
    requires In(ts, c)
    ensures In(ts, r.c) && c.pos <= r.c.pos
    decreases Left(ts, c)
  {
    var p := Param(ts, c);
    if MoreParams(ts, p.c) then
      var rest := Params(ts, Advance(ts, p.c));
      Parsed([p.v] + rest.v, rest.c)
    else Parsed([p.v], Optional(ts, p.c, Comma))
  }

  // A function without braces runs to the next declaration.
  predicate StartsDecl(k: Kind) {
    k in {KwFn, KwFun, KwPub, KwStruct, KwEnum, KwType, KwImport, KwModule}
  }

  function OpenBody(ts: Stream, c: Cursor): (r: Parsed<Ast.Stmt>)
    requires In(ts, c)
    ensures In(ts, r.c) && c.pos <= r.c.pos
  {
    var ss := OpenStatements(ts, c);
    Parsed(Ast.Block(ss.v), ss.c)
  }

  function OpenStatements(ts: Stream, c: Cursor): (r: Parsed<seq<Ast.Stmt>>)
    requires In(ts, c)
    ensures In(ts, r.c) && c.pos <= r.c.pos
    ensures Current(ts, r.c).Eof? || StartsDecl(Current(ts, r.c))
    decreases Left(ts, c)
  {
    if Current(ts, c).Eof? || StartsDecl(Current(ts, c)) then Parsed([], c)
    else
      var s := Statement(ts, c);
      var rest := OpenStatements(ts, s.c);
      Parsed([s.v] + rest.v, rest.c)
  }

  // Error recovery stops after a semicolon or at one of these.
  predicate Resumes(k: Kind) {
    k in {KwFn, KwFun, KwStruct, KwEnum, KwLet, KwVar, KwConst, KwReturn, KwIf, KwEf, KwMatch, KwWhile, KwVloop, KwFor}
  }

  function Synchronize(ts: Stream, c: Cursor): (d: Cursor)
    requires In(ts, c)
    ensures In(ts, d) && c.pos <= d.pos && d.problems == c.problems
    ensures !Current(ts, c).Eof? && !Resumes(Current(ts, c)) ==> c.pos < d.pos
    ensures Current(ts, d).Eof? || Resumes(Current(ts, d)) || ts[d.pos - 1].kind.Semicolon?
    decreases Left(ts, c)
  {
    if Current(ts, c).Eof? || Resumes(Current(ts, c)) then c
    else if Current(ts, c).Semicolon? then Advance(ts, c)
    else Synchronize(ts, Advance(ts, c))
  }

  predicate IsDeclaration(k: Kind) {
    StartsDecl(k) || k in {KwLet, KwVar, KwConst}
  }

  function Declaration(ts: Stream, c: Cursor): (r: Parsed<Option<Ast.Decl>>)
    requires In(ts, c) && Plain(ts) && IsDeclaration(Current(ts, c))
    ensures In(ts, r.c) && c.pos < r.c.pos
  {
    var start := Optional(ts, c, KwPub);
    var k := Current(ts, start);
    if k in {KwLet, KwVar, KwConst} then
      var v := Variable(ts, start);
      Parsed(Some(Ast.Global(v.v)), v.c)
    else if k in {KwFn, KwFun, KwType, KwImport} then
      var d := DeclRest(ts, Advance(ts, start), k);
      Parsed(Some(d.v), d.c)
    else Parsed(None, Synchronize(ts, Complain(start, "expected a top-level declaration")))
  }

  function DeclRest(ts: Stream, c: Cursor, k: Kind): (r: Parsed<Ast.Decl>)
    requires In(ts, c) && k in {KwFn, KwFun, KwType, KwImport}
    ensures In(ts, r.c) && c.pos <= r.c.pos
  {
    if k.KwFn? || k.KwFun? then FunctionRest(ts, c)
    else if k.KwType? then AliasRest(ts, c)
    else ImportRest(ts, c)
  }

  // A file.

  // In a file that is a script, every function but main is called where it is declared.
  function CalledHere(name: string, main: seq<Ast.Stmt>, d: Ast.Decl): seq<Ast.Stmt> {
    if (name == "main" || main != []) && d.Function? && d.fn.name != "main"
    then [Ast.ExprStmt(Ast.Call(Ast.Ident(d.fn.name), []))] else []
  }

  // The declarations and the statements outside any function, in order.
  function Entries(ts: Stream, c: Cursor, name: string, decls: seq<Ast.Decl>, main: seq<Ast.Stmt>):
      (r: Parsed<(seq<Ast.Decl>, seq<Ast.Stmt>)>)
    requires In(ts, c) && Plain(ts)
    ensures In(ts, r.c) && c.pos <= r.c.pos && Current(ts, r.c).Eof?
    ensures decls <= r.v.0 && main <= r.v.1
    decreases Left(ts, c)
  {
    if Current(ts, c).Eof? then Parsed((decls, main), c)
    else if IsDeclaration(Current(ts, c)) then
      var d := Declaration(ts, c);
      if d.v.None? then Entries(ts, d.c, name, decls, main)
      else Entries(ts, d.c, name, decls + [d.v.value], main + CalledHere(name, main, d.v.value))
    else
      var s := Statement(ts, c);
      Entries(ts, s.c, name, decls, main + [s.v])
  }

  function ModuleName(ts: Stream, c: Cursor): (r: Parsed<string>)
    requires In(ts, c)
    ensures In(ts, r.c) && c.pos <= r.c.pos
  {
    if Current(ts, c).KwModule? then
      var next := Advance(ts, c);
      Parsed(ts[next.pos].lexeme, Optional(ts, Expect(ts, next, Identifier, "expected module name"), Semicolon))
    else Parsed("<anon>", c)
  }

  // Statements outside any function become the body of a function main.
  function WithMain(decls: seq<Ast.Decl>, main: seq<Ast.Stmt>): seq<Ast.Decl> {
    if main == [] then decls else decls + [Ast.Function(Ast.FunctionDecl("main", [], Some(Ast.Block(main))))]
  }

  predicate EndsOnce(ts: Stream) {
    forall i :: 0 <= i < |ts| - 1 ==> !ts[i].kind.Eof?
  }

  // The whole stream is read, whatever it holds.
  function File(ts: Stream): (r: Parsed<Ast.Module>)
    requires Plain(ts)
    ensures In(ts, r.c) && Current(ts, r.c).Eof?
    ensures EndsOnce(ts) ==> r.c.pos == |ts| - 1
  {
    var name := ModuleName(ts, Cursor(0, []));
    var all := Entries(ts, name.c, name.v, [], []);
    Parsed(Ast.Module(name.v, WithMain(all.v.0, all.v.1)), all.c)
  }
}
