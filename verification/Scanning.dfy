// Scanning a source text, as functions of the text and a position in it: what is skipped
// between tokens, and what the token at a position is.
module Scanning {
  import opened Common
  import opened Tokens

  // Past the end there is a NUL.
  function Peek(s: string, i: nat): char {
    if i < |s| then s[i] else '\0'
  }

  predicate IsAlpha(c: char) {
    'a' <= c <= 'z' || 'A' <= c <= 'Z'
  }

  predicate IsDigit(c: char) {
    '0' <= c <= '9'
  }

  predicate IsHexDigit(c: char) {
    IsDigit(c) || 'a' <= c <= 'f' || 'A' <= c <= 'F'
  }

  predicate IsBinaryDigit(c: char) {
    c == '0' || c == '1'
  }

  predicate IsOctalDigit(c: char) {
    '0' <= c <= '7'
  }

  predicate IsWordChar(c: char) {
    IsAlpha(c) || IsDigit(c) || c == '_'
  }

  predicate IsBlank(c: char) {
    c == ' ' || c == '\t' || c == '\r' || c == '\n'
  }

  // The kinds of characters that are read in a row.
  datatype Run = Word | Decimal | Hex | Binary | Octal | Line | Quoted

  predicate Runs(r: Run, c: char) {
    match r
    case Word => IsWordChar(c)
    case Decimal => IsDigit(c)
    case Hex => IsHexDigit(c)
    case Binary => IsBinaryDigit(c)
    case Octal => IsOctalDigit(c)
    case Line => c != '\n'
    case Quoted => c != '\'' && c != '\n'
  }

  // The first position from i on that is not part of the run.
  function RunEnd(s: string, i: nat, r: Run): (j: nat)
    requires i <= |s|
    ensures i <= j <= |s|
    ensures forall k :: i <= k < j ==> Runs(r, s[k])
    ensures j < |s| ==> !Runs(r, s[j])
    decreases |s| - i
  {
    if i < |s| && Runs(r, s[i]) then RunEnd(s, i + 1, r) else i
  }

  // Comments and blanks.

  // From inside `depth` nested comments to behind the last one, or to the end.
  function CommentEnd(s: string, i: nat, depth: nat): (j: nat)
    requires i <= |s|
    ensures i <= j <= |s|
    decreases |s| - i
  {
    if depth == 0 || i == |s| then i
    else if s[i] == '*' && Peek(s, i + 1) == '/' then CommentEnd(s, i + 2, depth - 1)
    else if s[i] == '/' && Peek(s, i + 1) == '*' then CommentEnd(s, i + 2, depth + 1)
    else CommentEnd(s, i + 1, depth)
  }

  predicate CommentOpen(s: string, i: nat, depth: nat)
    requires i <= |s|
    decreases |s| - i
  {
    depth > 0 &&
    (i == |s| ||
     if s[i] == '*' && Peek(s, i + 1) == '/' then CommentOpen(s, i + 2, depth - 1)
     else if s[i] == '/' && Peek(s, i + 1) == '*' then CommentOpen(s, i + 2, depth + 1)
     else CommentOpen(s, i + 1, depth))
  }

  // Something to skip starts here. A lone `#` at the very end is no comment the lexer can
  // read: it takes two characters for its start.
  predicate Skippable(s: string, i: nat) {
    i < |s| &&
    (IsBlank(s[i]) || (s[i] == '#' && i + 1 < |s|) || (s[i] == '/' && (Peek(s, i + 1) == '/' || Peek(s, i + 1) == '*')))
  }

  // A line comment starts with two characters, whatever the second one is.
  function SkipOne(s: string, i: nat): (j: nat)
    requires Skippable(s, i)
    ensures i < j <= |s|
  {
    if IsBlank(s[i]) then i + 1
    else if s[i] == '#' || Peek(s, i + 1) == '/' then RunEnd(s, i + 2, Line)
    else CommentEnd(s, i + 2, 1)
  }

  function Skip(s: string, i: nat): (j: nat)
    requires i <= |s|
    ensures i <= j <= |s| && !Skippable(s, j)
    decreases |s| - i
  {
    if Skippable(s, i) then Skip(s, SkipOne(s, i)) else i
  }

  lemma {:induction false} OpenToEnd(s: string, i: nat, depth: nat)
    requires i <= |s| && CommentOpen(s, i, depth)
    ensures CommentEnd(s, i, depth) == |s|
    decreases |s| - i
  {
    if i < |s| {
      if s[i] == '*' && Peek(s, i + 1) == '/' {
        OpenToEnd(s, i + 2, depth - 1);
      } else if s[i] == '/' && Peek(s, i + 1) == '*' {
        OpenToEnd(s, i + 2, depth + 1);
      } else {
        OpenToEnd(s, i + 1, depth);
      }
    }
  }

  // The block comment that is still open at the end of the text.
  function OpenComment(s: string, i: nat): (c: Option<nat>)
    requires i <= |s|
    ensures c.Some? ==> c.value <= |s|
    decreases |s| - i
  {
    if !Skippable(s, i) then None
    else if s[i] == '/' && Peek(s, i + 1) == '*' && CommentOpen(s, i + 2, 1) then Some(i)
    else OpenComment(s, SkipOne(s, i))
  }

  // Tokens.

  datatype Fault = UnterminatedString | UnterminatedChar | LongChar | UnexpectedChar | UnterminatedComment

  // Where a token ends, its kind, and what is wrong with it.
  datatype Scan = Scan(kind: Kind, end: nat, fault: Option<Fault>)

  function Good(k: Kind, end: nat): Scan {
    Scan(k, end, None)
  }

  function Keywords(): seq<(string, Kind)> {
    [
      ("fn", KwFn), ("let", KwLet), ("var", KwVar), ("const", KwConst), ("if", KwIf),
      ("else", KwElse), ("while", KwWhile), ("for", KwFor), ("in", KwIn), ("return", KwReturn),
      ("import", KwImport), ("module", KwModule), ("struct", KwStruct), ("interface", KwInterface),
      ("enum", KwEnum), ("type", KwType), ("true", KwTrue), ("false", KwFalse), ("nil", KwNil),
      ("pub", KwPub), ("mut", KwMut), ("self", KwSelf), ("as", KwAs), ("break", KwBreak),
      ("continue", KwContinue), ("match", KwMatch), ("fun", KwFun), ("ef", KwEf), ("el", KwEl),
      ("vloop", KwVloop), ("array", KwArray)
    ]
  }

  function KeywordAmong(w: string, table: seq<(string, Kind)>): Kind {
    if table == [] then Identifier else if table[0].0 == w then table[0].1 else KeywordAmong(w, table[1..])
  }

  function WordKind(w: string): Kind {
    KeywordAmong(w, Keywords())
  }

  lemma {:induction false} KeywordsOnly(w: string, table: seq<(string, Kind)>)
    requires forall i :: 0 <= i < |table| ==> table[i].1 !in {Eof, Hash, Error}
    ensures KeywordAmong(w, table) !in {Eof, Hash, Error}
  {
    if table != [] {
      KeywordsOnly(w, table[1..]);
    }
  }

  // The token that starts at p.

  function ScanWord(s: string, p: nat): (r: Scan)
    requires p < |s| && IsWordChar(s[p])
    ensures p < r.end <= |s| && r.fault.None? && r.kind !in {Eof, Hash, Error}
  {
    var j := RunEnd(s, p, Word);
    KeywordsOnly(s[p..j], Keywords());
    Good(WordKind(s[p..j]), j)
  }

  function ExponentDigits(s: string, i: nat): (j: nat)
    requires i < |s|
    ensures i < j <= |s|
  {
    if Peek(s, i + 1) == '+' || Peek(s, i + 1) == '-' then i + 2 else i + 1
  }

  function ScanExponent(s: string, i: nat, isFloat: bool): (r: Scan)
    requires i <= |s|
    ensures i <= r.end <= |s| && r.fault.None? && !r.kind.Eof? && !r.kind.Hash?
  {
    if Peek(s, i) == 'e' || Peek(s, i) == 'E' then Good(FloatLiteral, RunEnd(s, ExponentDigits(s, i), Decimal))
    else Good(if isFloat then FloatLiteral else IntLiteral, i)
  }

  // Behind the decimal digits.
  function ScanFraction(s: string, i: nat): (r: Scan)
    requires i <= |s|
    ensures i <= r.end <= |s| && r.fault.None? && !r.kind.Eof? && !r.kind.Hash?
  {
    if Peek(s, i) == '.' && IsDigit(Peek(s, i + 1)) then ScanExponent(s, RunEnd(s, i + 1, Decimal), true)
    else ScanExponent(s, i, false)
  }

  // The digits a prefix after 0 announces.
  function Radix(c: char): Option<Run> {
    if c == 'x' || c == 'X' then Some(Hex)
    else if c == 'b' || c == 'B' then Some(Binary)
    else if c == 'o' || c == 'O' then Some(Octal)
    else None
  }

  function ScanNumber(s: string, p: nat): (r: Scan)
    requires p < |s| && IsDigit(s[p])
    ensures p < r.end <= |s| && r.fault.None? && !r.kind.Eof? && !r.kind.Hash?
  {
    if s[p] == '0' && Radix(Peek(s, p + 1)).Some? then
      Good(IntLiteral, RunEnd(s, p + 2, Radix(Peek(s, p + 1)).value))
    else ScanFraction(s, RunEnd(s, p + 1, Decimal))
  }

  // From i on, inside the quotes. A backslash takes the next character with it.
  function ScanString(s: string, i: nat): (r: Scan)
    requires i <= |s|
    ensures i <= r.end <= |s| && r.fault != Some(UnexpectedChar) && !r.kind.Eof? && !r.kind.Hash?
    ensures if r.fault.Some? then r.kind.Error? else r.kind.StringLiteral?
    decreases |s| - i
  {
    if i == |s| then Scan(Error, i, Some(UnterminatedString))
    else if s[i] == '"' then Good(StringLiteral, i + 1)
    else if s[i] == '\\' then ScanString(s, if i + 1 < |s| then i + 2 else i + 1)
    else if s[i] == '\n' then Scan(Error, i + 1, Some(UnterminatedString))
    else ScanString(s, i + 1)
  }

  // Behind the character of a character literal whose content starts at i.
  function CharEnd(s: string, i: nat): (j: nat)
    requires i < |s|
    ensures i < j <= |s|
  {
    if s[i] == '\\' && i + 1 < |s| then i + 2 else i + 1
  }

  // Recovery reads on to the next quote or the end of the line.
  function ScanCharEnd(s: string, j: nat): (r: Scan)
    requires j <= |s|
    ensures j <= r.end <= |s| && r.fault != Some(UnexpectedChar) && !r.kind.Eof? && !r.kind.Hash?
    ensures if r.fault.Some? then r.kind.Error? else r.kind.CharLiteral?
  {
    if Peek(s, j) == '\'' then Good(CharLiteral, j + 1)
    else
      var k := RunEnd(s, j, Quoted);
      Scan(Error, if Peek(s, k) == '\'' then k + 1 else k, Some(LongChar))
  }

  function ScanChar(s: string, i: nat): (r: Scan)
    requires i <= |s|
    ensures i <= r.end <= |s| && r.fault != Some(UnexpectedChar) && !r.kind.Eof? && !r.kind.Hash?
    ensures if r.fault.Some? then r.kind.Error? else r.kind.CharLiteral?
  {
    if i == |s| then Scan(Error, i, Some(UnterminatedChar)) else ScanCharEnd(s, CharEnd(s, i))
  }

  function PairKind(c: char, d: char): (k: Option<Kind>)
    ensures k != Some(Error) && k != Some(Eof) && k != Some(Hash)
  {
    if c == '+' && d == '=' then Some(PlusEq)
    else if c == '-' && d == '>' then Some(Arrow)
    else if c == '-' && d == '=' then Some(MinusEq)
    else if c == '*' && d == '=' then Some(StarEq)
    else if c == '/' && d == '=' then Some(SlashEq)
    else if c == '%' && d == '=' then Some(PercentEq)
    else if c == '&' && d == '&' then Some(AndAnd)
    else if c == '&' && d == '=' then Some(AmpEq)
    else if c == '|' && d == '|' then Some(OrOr)
    else if c == '|' && d == '=' then Some(PipeEq)
    else if c == '^' && d == '=' then Some(CaretEq)
    else if c == '<' && d == '<' then Some(Shl)
    else if c == '<' && d == '=' then Some(LtEq)
    else if c == '>' && d == '>' then Some(Shr)
    else if c == '>' && d == '=' then Some(GtEq)
    else if c == '=' && d == '=' then Some(EqEq)
    else if c == '=' && d == '>' then Some(FatArrow)
    else if c == '!' && d == '=' then Some(NotEq)
    else if c == ':' && d == ':' then Some(ColonColon)
    else if c == '.' && d == '.' then Some(DotDot)
    else None
  }

  function SingleKind(c: char): (k: Option<Kind>)
    ensures k != Some(Error) && k != Some(Eof) && (k == Some(Hash) <==> c == '#')
  {
    match c
    case '+' => Some(Plus)
    case '-' => Some(Minus)
    case '*' => Some(Star)
    case '/' => Some(Slash)
    case '%' => Some(Percent)
    case '&' => Some(Amp)
    case '|' => Some(Pipe)
    case '^' => Some(Caret)
    case '~' => Some(Tilde)
    case '<' => Some(Lt)
    case '>' => Some(Gt)
    case '=' => Some(Kind.Eq)
    case '!' => Some(Bang)
    case ':' => Some(Colon)
    case '.' => Some(Dot)
    case '(' => Some(LParen)
    case ')' => Some(RParen)
    case '{' => Some(LBrace)
    case '}' => Some(RBrace)
    case '[' => Some(LBracket)
    case ']' => Some(RBracket)
    case ',' => Some(Comma)
    case ';' => Some(Semicolon)
    case '@' => Some(At)
    case '#' => Some(Hash)
    case '?' => Some(Question)
    case _ => None
  }

  function ScanOperator(s: string, p: nat): (r: Scan)
    requires p < |s|
    ensures p < r.end <= |s| && !r.kind.Eof? && (r.kind.Hash? <==> s[p] == '#')
    ensures r.fault.Some? ==> r.fault.value.UnexpectedChar? && r.end == p + 1
    ensures r.fault.Some? <==> r.kind.Error?
  {
    var pair := PairKind(s[p], Peek(s, p + 1));
    if pair == Some(DotDot) && Peek(s, p + 2) == '.' then Good(DotDotDot, p + 3)
    else if pair.Some? then Good(pair.value, p + 2)
    else if SingleKind(s[p]).Some? then Good(SingleKind(s[p]).value, p + 1)
    else Scan(Error, p + 1, Some(UnexpectedChar))
  }

  function ScanToken(s: string, p: nat): (r: Scan)
    requires p < |s|
    ensures p < r.end <= |s| && !r.kind.Eof? && (r.kind.Hash? <==> s[p] == '#')
    ensures r.fault.Some? <==> r.kind.Error?
  {
    if IsAlpha(s[p]) || s[p] == '_' then ScanWord(s, p)
    else if IsDigit(s[p]) then ScanNumber(s, p)
    else if s[p] == '"' then ScanString(s, p + 1)
    else if s[p] == '\'' then ScanChar(s, p + 1)
    else ScanOperator(s, p)
  }
}
